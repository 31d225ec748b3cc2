/** frontend/src/components/Drifts/DriftForm.jsx: the form that creates a drift, or in edit mode
    loads one and updates it. The awaited API calls are parameters, and the call the form makes
    and the page it navigates to are part of its state. */
module DriftForm {
  import opened Common
  import opened Forms
  import opened ApiClient

  const TitleRequired := "Title is required"
  const FetchFailed := "Failed to fetch drift"
  const UpdateFailed := "Failed to update drift"
  const CreateFailed := "Failed to create drift"
  const ListPath := "/drifts"

  /** The properties of a fetched drift the form reads, as the drift endpoint sends them; a null
      is `None`. */
  datatype FetchedDrift = FetchedDrift(title: string, description: Option<string>, priority: string, assignedToId: Option<int>)

  /** The fields every state of the form holds; the two text fields are strings. */
  predicate HasFields(form: map<string, JsValue>) {
    && "title" in form && form["title"].Str?
    && "description" in form && form["description"].Str?
    && "priority" in form && "assigned_to_id" in form
  }

  /** `fetchDrift`'s form: each property of the drift, with the empty string for a missing title,
      description or assignee and "medium" for a missing priority. */
  function FormOf(d: FetchedDrift): (form: map<string, JsValue>)
    ensures HasFields(form)
    ensures form.Keys == {"title", "description", "priority", "assigned_to_id"}
    ensures form["title"] == Str(d.title)
    ensures form["description"] == Str(if d.description.Some? then d.description.value else "")
    ensures Truthy(form["priority"])
    ensures d.priority != "" ==> form["priority"] == Str(d.priority)
    ensures Truthy(form["assigned_to_id"]) <==> d.assignedToId.Some? && d.assignedToId.value != 0
    ensures Truthy(form["assigned_to_id"]) ==> form["assigned_to_id"] == Num(d.assignedToId.value)
  {
    var description := if d.description.Some? then Str(d.description.value) else Null;
    var assignee := if d.assignedToId.Some? then Num(d.assignedToId.value) else Null;
    map[
      "title" := Or(Str(d.title), Str("")),
      "description" := Or(description, Str("")),
      "priority" := Or(Str(d.priority), Str("medium")),
      "assigned_to_id" := Or(assignee, Str(""))]
  }

  /** The errors `validateForm` finds: a title with no non-space character is required. */
  function DriftErrors(form: map<string, JsValue>): (errors: map<string, JsValue>)
    requires HasFields(form)
    ensures errors.Keys <= {"title"}
    ensures "title" in errors <==> IsBlank(form["title"].s)
    ensures "title" in errors ==> errors["title"] == Str(TitleRequired)
  {
    if Trim(form["title"].s) == "" then map["title" := Str(TitleRequired)] else map[]
  }

  /** The body `handleSubmit` sends. */
  datatype DriftPayload = DriftPayload(title: string, description: string, priority: JsValue, assignedToId: JsValue)

  /** The payload of a form: the text fields trimmed, the priority as it is, and a falsy assignee,
      the empty choice included, sent as null. */
  function PayloadOf(form: map<string, JsValue>): (p: DriftPayload)
    requires HasFields(form)
    ensures p.priority == form["priority"]
    ensures Truthy(form["assigned_to_id"]) ==> p.assignedToId == form["assigned_to_id"]
    ensures !Truthy(form["assigned_to_id"]) ==> p.assignedToId == Null
    ensures exists i :: TrimmedAt(form["title"].s, p.title, i, JsSpace)
    ensures exists i :: TrimmedAt(form["description"].s, p.description, i, JsSpace)
    ensures p.description != "" ==> !IsSpace(p.description[0]) && !IsSpace(p.description[|p.description| - 1])
    ensures p.title != "" ==> !IsSpace(p.title[0]) && !IsSpace(p.title[|p.title| - 1])
    ensures p.title == "" <==> IsBlank(form["title"].s)
  {
    DriftPayload(Trim(form["title"].s), Trim(form["description"].s), form["priority"],
                 Or(form["assigned_to_id"], Null))
  }

  /** A form that passes validation sends a non-empty title. */
  lemma ValidFormSendsTitle(form: map<string, JsValue>)
    requires HasFields(form)
    requires DriftErrors(form) == map[]
    ensures PayloadOf(form).title != ""
  {
    assert "title" !in DriftErrors(form);
  }

  /** Loading a drift and saving it unchanged sends its own priority and assignee back, a drift
      without one being sent a null assignee, and passes validation exactly when its title has a
      non-space character. */
  lemma FetchThenSubmit(d: FetchedDrift)
    requires d.priority != ""
    ensures PayloadOf(FormOf(d)).priority == Str(d.priority)
    ensures PayloadOf(FormOf(d)).assignedToId ==
      (if d.assignedToId.Some? && d.assignedToId.value != 0 then Num(d.assignedToId.value) else Null)
    ensures DriftErrors(FormOf(d)) == map[] <==> !IsBlank(d.title)
  {
    var form := FormOf(d);
    if !IsBlank(d.title) {
      assert "title" !in DriftErrors(form);
      assert DriftErrors(form).Keys == {};
    }
  }

  /** The call `handleSubmit` makes into the drift endpoints, if any. */
  datatype DriftCall = NoCall | CreateCall(payload: DriftPayload) | UpdateCall(id: string, payload: DriftPayload)

  /** The form's state cells; `editMode` is its property and `id` the route's parameter. */
  class DriftFormState {
    const editMode: bool
    const id: string
    var formData: map<string, JsValue>
    var validationErrors: map<string, JsValue>
    var loading: bool
    var error: JsValue
    /** The page the form navigated to, if it did. */
    var navigatedTo: Option<string>

    predicate Valid()
      reads this
    {
      HasFields(formData)
    }

    /** Empty text, a "medium" priority, no assignee, no errors. */
    constructor(editMode: bool, id: string)
      ensures Valid() && this.editMode == editMode && this.id == id
      ensures formData == map["title" := Str(""), "description" := Str(""), "priority" := Str("medium"), "assigned_to_id" := Str("")]
      ensures validationErrors == map[] && !loading && error == Null && navigatedTo == None
    {
      this.editMode := editMode;
      this.id := id;
      formData := map["title" := Str(""), "description" := Str(""), "priority" := Str("medium"), "assigned_to_id" := Str("")];
      validationErrors := map[];
      loading := false;
      error := Null;
      navigatedTo := None;
    }

    /** `fetchDrift`: the drift's values replace the form; a failure keeps the form and records
        the message. Loading is over either way. */
    method FetchDrift(outcome: Settled<FetchedDrift>)
      requires Valid()
      modifies this`formData, this`loading, this`error
      ensures Valid() && !loading
      ensures outcome.Resolved? ==> formData == FormOf(outcome.value) && error == old(error)
      ensures outcome.Rejected? ==> formData == old(formData) && error == Or(outcome.reason.message, Str(FetchFailed))
    {
      loading := true;
      match outcome {
        case Resolved(d) =>
          formData := FormOf(d);
        case Rejected(err) =>
          error := Or(err.message, Str(FetchFailed));
      }
      loading := false;
    }

    /** `validateForm`: stores the errors and reports whether there were none. */
    method ValidateForm() returns (valid: bool)
      requires Valid()
      modifies this`validationErrors
      ensures validationErrors == DriftErrors(formData)
      ensures valid <==> validationErrors == map[]
    {
      var errors: map<string, JsValue> := map[];
      if Trim(formData["title"].s) == "" {
        errors := errors["title" := Str(TitleRequired)];
      }
      validationErrors := errors;
      valid := errors == map[];
    }

    /** `handleSubmit`: an invalid form makes no call and changes nothing but the errors. A valid
        one sends its payload, to the update endpoint of `id` in edit mode and to the create
        endpoint otherwise; success goes to the drift list, failure records the message. Loading
        is over either way. */
    method HandleSubmit(outcome: Settled<JsValue>) returns (call: DriftCall)
      requires Valid()
      modifies this`validationErrors, this`loading, this`error, this`navigatedTo
      ensures validationErrors == DriftErrors(formData)
      ensures call.NoCall? <==> validationErrors != map[]
      ensures call.NoCall? ==> loading == old(loading) && error == old(error) && navigatedTo == old(navigatedTo)
      ensures !call.NoCall? ==>
        call == if editMode then UpdateCall(id, PayloadOf(formData)) else CreateCall(PayloadOf(formData))
      ensures !call.NoCall? ==> !loading
      ensures !call.NoCall? && outcome.Resolved? ==> navigatedTo == Some(ListPath) && error == Null
      ensures !call.NoCall? && outcome.Rejected? ==>
        && navigatedTo == old(navigatedTo)
        && error == Or(outcome.reason.message, Str(if editMode then UpdateFailed else CreateFailed))
    {
      var valid := ValidateForm();
      if !valid {
        return NoCall;
      }
      var payload := PayloadOf(formData);
      call := Send(payload, outcome);
    }

    /** The `try` block of `handleSubmit` once the form is valid: the call to the endpoint the mode
        selects, then the navigation or the error, and the end of loading. */
    method Send(payload: DriftPayload, outcome: Settled<JsValue>) returns (call: DriftCall)
      modifies this`loading, this`error, this`navigatedTo
      ensures call == if editMode then UpdateCall(id, payload) else CreateCall(payload)
      ensures !loading
      ensures outcome.Resolved? ==> navigatedTo == Some(ListPath) && error == Null
      ensures outcome.Rejected? ==>
        && navigatedTo == old(navigatedTo)
        && error == Or(outcome.reason.message, Str(if editMode then UpdateFailed else CreateFailed))
    {
      loading := true;
      error := Null;
      if editMode {
        call := UpdateCall(id, payload);
      } else {
        call := CreateCall(payload);
      }
      match outcome {
        case Resolved(_) =>
          navigatedTo := Some(ListPath);
        case Rejected(err) =>
          error := Or(err.message, Str(if editMode then UpdateFailed else CreateFailed));
      }
      loading := false;
    }

    /** `handleInputChange`: the named field takes the typed text and its error, if shown, is
        hidden; nothing else changes. */
    method HandleInputChange(name: string, value: string)
      requires Valid()
      modifies this`formData, this`validationErrors
      ensures Valid()
      ensures formData == old(formData)[name := Str(value)]
      ensures validationErrors == ClearFieldError(old(validationErrors), name)
    {
      formData := formData[name := Str(value)];
      if Truthy(Lookup(validationErrors, name)) {
        validationErrors := validationErrors[name := Str("")];
      }
    }
  }
}
