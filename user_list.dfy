/** frontend/src/components/Admin/UserList.jsx: the administrators' page that lists the users and
    creates new ones. The awaited API calls are parameters. */
module UserList {
  import opened Common
  import opened Forms
  import opened ApiClient

  const UsernameRequired := "Username is required"
  const EmailRequired := "Email is required"
  const PasswordRequired := "Password is required"
  const FullNameRequired := "Full name is required"
  const FetchFailed := "Failed to fetch users"
  const CreateFailed := "Failed to create user"

  /** A check that trims: `message` when `value` has no non-space character. */
  function BlankError(value: string, message: string): Option<string> {
    if IsBlank(value) then Some(message) else None
  }

  /** `BlankError` is the page's test `!value.trim()`: it fires exactly when trimming leaves the
      empty string. */
  lemma BlankErrorTrims(value: string, message: string)
    ensures BlankError(value, message) == if Trim(value) == "" then Some(message) else None
  {
  }

  /** A check that does not trim: `message` when `value` is empty. */
  function EmptyError(value: string, message: string): Option<string> {
    if value == "" then Some(message) else None
  }

  /** The fields every state of the new-user form holds. */
  predicate HasFields(form: map<string, string>) {
    "username" in form && "password" in form && "email" in form && "full_name" in form && "role" in form
  }

  /** The new-user form after a reset: empty text and the "user" role. */
  const EmptyForm: map<string, string> :=
    map["username" := "", "email" := "", "full_name" := "", "password" := "", "role" := "user"]

  /** The errors `handleCreateUser` finds in `form`. */
  function CreateErrors(form: map<string, string>): map<string, JsValue>
    requires HasFields(form)
  {
    ErrorObject(BlankError(form["username"], UsernameRequired), EmptyError(form["password"], PasswordRequired),
                BlankError(form["email"], EmailRequired), BlankError(form["full_name"], FullNameRequired))
  }

  /** The user name, address and full name must each have a non-space character; the password,
      which is not trimmed, must only be non-empty. There are no other checks. */
  lemma CreateErrorsEntries(form: map<string, string>)
    requires HasFields(form)
    ensures CreateErrors(form).Keys <= AccountFields
    ensures forall k :: k in CreateErrors(form) ==> Truthy(CreateErrors(form)[k])
    ensures Lookup(CreateErrors(form), "username") == (if IsBlank(form["username"]) then Str(UsernameRequired) else Undefined)
    ensures Lookup(CreateErrors(form), "email") == (if IsBlank(form["email"]) then Str(EmailRequired) else Undefined)
    ensures Lookup(CreateErrors(form), "password") == (if form["password"] == "" then Str(PasswordRequired) else Undefined)
    ensures Lookup(CreateErrors(form), "full_name") == (if IsBlank(form["full_name"]) then Str(FullNameRequired) else Undefined)
  {
    ErrorObjectEntries(BlankError(form["username"], UsernameRequired), EmptyError(form["password"], PasswordRequired),
                       BlankError(form["email"], EmailRequired), BlankError(form["full_name"], FullNameRequired));
  }

  /** The form is accepted exactly when the three trimmed fields and the password are non-empty;
      a password of spaces is accepted. */
  lemma CreateAccepted(form: map<string, string>)
    requires HasFields(form)
    ensures CreateErrors(form) == map[] <==>
      !IsBlank(form["username"]) && !IsBlank(form["email"]) && form["password"] != "" && !IsBlank(form["full_name"])
  {
    ErrorObjectEmpty(BlankError(form["username"], UsernameRequired), EmptyError(form["password"], PasswordRequired),
                     BlankError(form["email"], EmailRequired), BlankError(form["full_name"], FullNameRequired));
  }

  /** The page's state cells. */
  class UserListState {
    var users: JsValue
    var loading: bool
    var error: JsValue
    var showCreateForm: bool
    var newUser: map<string, string>
    var formErrors: map<string, JsValue>

    predicate Valid()
      reads this
    {
      HasFields(newUser)
    }

    /** No users yet, loading, no error, the form hidden and empty. */
    constructor()
      ensures Valid()
      ensures users == Arr([]) && loading && error == Null && !showCreateForm
      ensures newUser == EmptyForm && formErrors == map[]
    {
      users := Arr([]);
      loading := true;
      error := Null;
      showCreateForm := false;
      newUser := EmptyForm;
      formErrors := map[];
    }

    /** `fetchUsers`: the answer's `users`, or an empty list when it has none, and no error; a
        failure keeps the list and records the message. Loading is over either way. */
    method FetchUsers(outcome: Settled<JsValue>)
      modifies this`users, this`error, this`loading
      ensures !loading
      ensures outcome.Resolved? ==> users == Or(Prop(outcome.value, "users"), Arr([])) && error == Null
      ensures outcome.Resolved? ==> Truthy(users)
      ensures outcome.Rejected? ==> users == old(users) && error == Or(outcome.reason.message, Str(FetchFailed))
    {
      match outcome {
        case Resolved(data) =>
          users := Or(Prop(data, "users"), Arr([]));
          error := Null;
        case Rejected(err) =>
          error := Or(err.message, Str(FetchFailed));
      }
      loading := false;
    }

    /** `handleCreateUser`: a form with errors sends nothing and shows exactly those errors. A
        valid one is sent as it is; on success the form is reset and hidden, the errors cleared
        and the list fetched again (`refetch` is that call's outcome); on failure only a `submit`
        error is shown and the typed values stay. */
    method HandleCreateUser(create: Settled<JsValue>, refetch: Settled<JsValue>) returns (sent: Option<map<string, string>>)
      requires Valid()
      modifies this
      ensures Valid()
      ensures sent.None? <==> CreateErrors(old(newUser)) != map[]
      ensures sent.None? ==>
        && formErrors == CreateErrors(old(newUser)) && newUser == old(newUser)
        && showCreateForm == old(showCreateForm) && users == old(users) && error == old(error) && loading == old(loading)
      ensures sent.Some? ==> sent.value == old(newUser) && Submitted(create, refetch)
    {
      var form := newUser;
      var accepted := Validate();
      assert newUser == form;
      if !accepted {
        return None;
      }
      sent := Some(form);
      Submit(create, refetch);
    }

    /** The checks of `handleCreateUser` and their early return: the errors found are shown, if
        there are any, and the form is accepted when there are none. */
    method Validate() returns (accepted: bool)
      requires Valid()
      modifies this`formErrors
      ensures accepted <==> CreateErrors(newUser) == map[]
      ensures !accepted ==> formErrors == CreateErrors(newUser)
      ensures accepted ==> formErrors == old(formErrors)
    {
      var errors := CollectErrors(newUser);
      accepted := errors == map[];
      if !accepted {
        formErrors := errors;
      }
    }

    /** The effect of the `try` block of `handleCreateUser`: on success the form is reset and
        hidden, the errors cleared and the list fetched again; on failure only a `submit` error is
        shown and the typed values stay. */
    twostate predicate Submitted(create: Settled<JsValue>, refetch: Settled<JsValue>)
      reads this
    {
      && (create.Resolved? ==>
        && newUser == EmptyForm && !showCreateForm && formErrors == map[] && !loading
        && (refetch.Resolved? ==> users == Or(Prop(refetch.value, "users"), Arr([])) && error == Null)
        && (refetch.Rejected? ==> users == old(users) && error == Or(refetch.reason.message, Str(FetchFailed))))
      && (create.Rejected? ==>
        && formErrors == map["submit" := Or(create.reason.message, Str(CreateFailed))]
        && newUser == old(newUser) && showCreateForm == old(showCreateForm)
        && users == old(users) && error == old(error) && loading == old(loading))
    }

    /** The `try` block of `handleCreateUser`, once the form is valid. */
    method Submit(create: Settled<JsValue>, refetch: Settled<JsValue>)
      requires Valid()
      modifies this
      ensures Valid()
      ensures Submitted(create, refetch)
    {
      match create {
        case Resolved(_) =>
          newUser := EmptyForm;
          showCreateForm := false;
          formErrors := map[];
          FetchUsers(refetch);
        case Rejected(err) =>
          formErrors := map["submit" := Or(err.message, Str(CreateFailed))];
      }
    }

    /** `handleInputChange`: the named field takes the typed value and its error, if shown, is
        hidden; nothing else changes. */
    method HandleInputChange(name: string, value: string)
      requires Valid()
      modifies this`newUser, this`formErrors
      ensures Valid()
      ensures newUser == old(newUser)[name := value]
      ensures formErrors == ClearFieldError(old(formErrors), name)
    {
      newUser := newUser[name := value];
      if Truthy(Lookup(formErrors, name)) {
        formErrors := formErrors[name := Str("")];
      }
    }

    /** The header's button, "Add User" or "Cancel": it opens a closed create form and closes an
        open one. The typed values and the errors are kept either way. */
    method HandleToggleCreate()
      modifies this`showCreateForm
      ensures showCreateForm == !old(showCreateForm)
    {
      showCreateForm := !showCreateForm;
    }

    /** The form's own "Cancel": the form closes and its errors are dropped, while the typed values
        are kept for the next time it opens. */
    method HandleCancel()
      modifies this`showCreateForm, this`formErrors
      ensures !showCreateForm && formErrors == map[]
    {
      showCreateForm := false;
      formErrors := map[];
    }
  }

  /** The checks of `handleCreateUser`, one assignment at a time and in its order. */
  method CollectErrors(form: map<string, string>) returns (errors: map<string, JsValue>)
    requires HasFields(form)
    ensures errors == CreateErrors(form)
  {
    errors := map[];
    errors := Put(errors, "username", BlankError(form["username"], UsernameRequired));
    var afterName := errors;
    errors := Put(errors, "email", BlankError(form["email"], EmailRequired));
    errors := Put(errors, "password", EmptyError(form["password"], PasswordRequired));
    AccountFieldsDistinct();
    PutCommutes(afterName, "email", BlankError(form["email"], EmailRequired), "password", EmptyError(form["password"], PasswordRequired));
    errors := Put(errors, "full_name", BlankError(form["full_name"], FullNameRequired));
  }
}
