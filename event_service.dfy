/** backend/app/services/event.py: the audit trail. Field changes of a drift become typed
    events; statuses are formatted for display and comment excerpts truncated. */
module EventService {
  import opened Common
  import opened Models

  /** What `create_event` is asked to store. */
  datatype EventDraft = EventDraft(
    driftId: int,
    userId: int,
    eventType: EventType,
    description: string,
    oldValue: Option<Encoded>,
    newValue: Option<Encoded>)

  function DraftOfEvent(e: Event): EventDraft {
    EventDraft(e.driftId, e.userId, e.eventType, e.description, e.oldValue, e.newValue)
  }

  function DraftsOfEvents(es: seq<Event>): (r: seq<EventDraft>)
    ensures |r| == |es| && forall k :: 0 <= k < |es| ==> r[k] == DraftOfEvent(es[k])
  {
    seq(|es|, k requires 0 <= k < |es| => DraftOfEvent(es[k]))
  }

  /** A payload (a Python dictionary) or Python `None`. */
  type Payload = Option<seq<(string, Value)>>

  /** `json.dumps(v) if v is not None else None`: a payload is encoded exactly when it is not
      `None`, and the encoding gives the payload back. */
  function EncodeOptional(v: Payload): (r: Option<Encoded>)
    ensures r.None? <==> v.None?
    ensures r.Some? ==> r.value.payload == v.value
  {
    match v
    case None => None
    case Some(p) => Some(Json(p))
  }

  /** `create_event`: appends one event with the given fields, the two values encoded only
      when they are not `None`. */
  method CreateEvent(db: Database, driftId: int, userId: int, eventType: EventType, description: string,
                     oldValue: Payload, newValue: Payload)
    returns (e: Event)
    modifies db`events, db`nextEventId
    ensures DraftOfEvent(e) ==
      EventDraft(driftId, userId, eventType, description, EncodeOptional(oldValue), EncodeOptional(newValue))
    ensures e.id == old(db.nextEventId)
    ensures db.events == old(db.events) + [e]
    ensures db.nextEventId == old(db.nextEventId) + 1
  {
    e := Event(db.nextEventId, driftId, userId, eventType, description,
               EncodeOptional(oldValue), EncodeOptional(newValue));
    db.events := db.events + [e];
    db.nextEventId := db.nextEventId + 1;
  }

  // ---------------------------------------------------------------------------
  // Display helpers

  /** Python's `str()` of a stored value. */
  function PyStr(v: Value): string {
    match v
    case VNone => "None"
    case VInt(i) => IntToString(i)
    case VStr(s) => s
    case VStatus(st) => StatusName(st)
    case VPriority(p) => PriorityName(p)
  }

  /** `v.value if hasattr(v, 'value') else v` */
  function Plain(v: Value): Value {
    match v
    case VStatus(st) => VStr(StatusValue(st))
    case VPriority(p) => VStr(PriorityValue(p))
    case _ => v
  }

  /** `s.replace('_', ' ').title()`: no underscore is left, and every letter is upper-case
      exactly when it starts a word. */
  function FormatText(s: string): (r: string)
    ensures |r| == |s|
    ensures forall i :: 0 <= i < |s| ==> r[i] != '_'
    ensures forall i :: 0 <= i < |s| && !IsLetter(s[i]) ==> r[i] == (if s[i] == '_' then ' ' else s[i])
    ensures forall i :: 0 <= i < |s| && IsLetter(s[i]) ==>
      r[i] == (if i > 0 && IsLetter(s[i - 1]) then ToLower(s[i]) else ToUpper(s[i]))
  {
    var spaced := ReplaceAll(s, '_', ' ');
    var r := TitleCase(spaced);
    FormatTextChars(s, spaced, r);
    r
  }

  lemma FormatTextChars(s: string, spaced: string, r: string)
    requires spaced == ReplaceAll(s, '_', ' ') && r == TitleCase(spaced)
    ensures forall i :: 0 <= i < |s| ==> r[i] != '_'
    ensures forall i :: 0 <= i < |s| && !IsLetter(s[i]) ==> r[i] == (if s[i] == '_' then ' ' else s[i])
    ensures forall i :: 0 <= i < |s| && IsLetter(s[i]) ==>
      r[i] == (if i > 0 && IsLetter(s[i - 1]) then ToLower(s[i]) else ToUpper(s[i]))
  {
    forall i | 0 <= i < |s|
      ensures r[i] != '_'
      ensures !IsLetter(s[i]) ==> r[i] == (if s[i] == '_' then ' ' else s[i])
      ensures IsLetter(s[i]) ==> r[i] == (if i > 0 && IsLetter(s[i - 1]) then ToLower(s[i]) else ToUpper(s[i]))
    {
      assert spaced[i] == (if s[i] == '_' then ' ' else s[i]);
      assert IsLetter(spaced[i]) <==> IsLetter(s[i]);
      assert i > 0 ==> (IsLetter(spaced[i - 1]) <==> IsLetter(s[i - 1]));
      assert r[i] == TitleChar(spaced[i], i > 0 && IsLetter(spaced[i - 1]));
    }
  }

  /** `format_status`: an enumeration member by its value, a string by itself, anything else
      by `str()`. A member or a string is title-cased as `FormatText` says, so it keeps the
      length of the plain value and loses every underscore. */
  function FormatStatus(v: Value): (r: string)
    ensures v.VStatus? || v.VPriority? || v.VStr? ==>
      && Plain(v).VStr?
      && r == FormatText(Plain(v).s)
      && |r| == |Plain(v).s|
      && forall i :: 0 <= i < |r| ==> r[i] != '_' && (Plain(v).s[i] == '_' ==> r[i] == ' ')
    ensures v.VNone? || v.VInt? ==> r == PyStr(v)
  {
    match v
    case VStatus(st) => FormatText(StatusValue(st))
    case VPriority(p) => FormatText(PriorityValue(p))
    case VStr(s) => FormatText(s)
    case _ => PyStr(v)
  }

  /** IN_PROGRESS is shown as two capitalised words. */
  lemma FormatInProgress()
    ensures FormatStatus(VStatus(InProgress)) == "In Progress"
  {
    InProgressSpaced();
    var a, b := "in", "progress";
    assert "in progress" == a + " " + b;
    TitleTwoWords(a, b);
    InProgressLetters();
  }

  lemma InProgressSpaced()
    ensures ReplaceAll("in_progress", '_', ' ') == "in progress"
  {
  }

  lemma InProgressLetters()
    ensures ToUpper('i') == 'I' && ToUpper('p') == 'P'
    ensures "in"[1..] == "n" && "progress"[1..] == "rogress"
    ensures ['I'] + "n" + " " + ['P'] + "rogress" == "In Progress"
  {
  }

  /** A one-word status is shown capitalised. */
  lemma FormatOpen()
    ensures FormatStatus(VStatus(Open)) == "Open"
  {
    OpenSpaced();
    TitleWord("open", []);
    OpenLetters();
  }

  lemma OpenSpaced()
    ensures ReplaceAll("open", '_', ' ') == "open"
  {
  }

  lemma OpenLetters()
    ensures ToUpper('o') == 'O' && "open"[1..] == "pen" && "open" + [] == "open"
    ensures ['O'] + "pen" == "Open"
  {
  }

  const ExcerptLength: nat := 100

  /** `content[:100] + ('...' if len(content) > 100 else '')`: the first hundred characters,
      followed by an ellipsis exactly when something was cut. */
  function CommentExcerpt(content: string): (r: string)
    ensures |r| == Min(|content|, ExcerptLength) + (if |content| > ExcerptLength then 3 else 0)
    ensures var kept := Min(|content|, ExcerptLength);
      && r[..kept] == content[..kept]
      && r[kept..] == (if |content| > ExcerptLength then "..." else "")
    ensures |r| <= ExcerptLength + 3
  {
    if |content| > ExcerptLength then content[..ExcerptLength] + "..." else content
  }

  // ---------------------------------------------------------------------------
  // Logging

  /** `log_drift_creation`: one CREATED event by the creator holding title, description,
      priority value and assignee. */
  method LogDriftCreation(db: Database, d: Drift) returns (e: Event)
    modifies db`events, db`nextEventId
    ensures e.eventType == Created && e.driftId == d.id && e.userId == d.createdById
    ensures e.description == "Created drift: " + d.title
    ensures e.oldValue == None
    ensures e.newValue == Some(Json([
      ("title", VStr(d.title)),
      ("description", if d.description.Some? then VStr(d.description.value) else VNone),
      ("priority", VStr(PriorityValue(d.priority))),
      ("assigned_to_id", if d.assignedToId.Some? then VInt(d.assignedToId.value) else VNone)]))
    ensures db.events == old(db.events) + [e]
  {
    e := CreateEvent(db, d.id, d.createdById, Created, "Created drift: " + d.title, None,
                     Some([("title", VStr(d.title)),
                           ("description", if d.description.Some? then VStr(d.description.value) else VNone),
                           ("priority", VStr(PriorityValue(d.priority))),
                           ("assigned_to_id", if d.assignedToId.Some? then VInt(d.assignedToId.value) else VNone)]));
  }

  /** `new_value is None or new_value == 0` */
  predicate IsUnassignment(v: Value) {
    v == VNone || v == VInt(0)
  }

  /** The event one field yields in `log_drift_update`: a changed status gives STATUS_CHANGED,
      a changed assignee ASSIGNED or UNASSIGNED, and everything else (an unchanged status or
      assignee included) a general UPDATED event. */
  function FieldEventDraft(driftId: int, userId: int, field: string, oldV: Value, newV: Value): (e: EventDraft)
    ensures e.driftId == driftId && e.userId == userId
    ensures e.eventType == StatusChanged <==> field == "status" && oldV != newV
    ensures e.eventType == Assigned <==> field == "assigned_to_id" && oldV != newV && !IsUnassignment(newV)
    ensures e.eventType == Unassigned <==> field == "assigned_to_id" && oldV != newV && IsUnassignment(newV)
    ensures e.eventType == Unassigned ==> e.description == "Drift unassigned"
    ensures e.eventType == Updated <==> !((field == "status" || field == "assigned_to_id") && oldV != newV)
    ensures e.eventType == StatusChanged ==>
      e.description == "Status changed from " + FormatStatus(oldV) + " to " + FormatStatus(newV)
    ensures e.eventType == Assigned ==> e.description == "Assigned to user " + PyStr(newV)
    ensures e.eventType == Updated ==>
      e.description == "Updated " + field + ": " + PyStr(oldV) + " \U{2192} " + PyStr(newV)
    ensures var raw := e.eventType == Assigned || e.eventType == Unassigned;
      && e.oldValue == Some(Json([(field, if raw then oldV else Plain(oldV))]))
      && e.newValue == Some(Json([(field, if raw then newV else Plain(newV))]))
  {
    if field == "status" && oldV != newV then
      EventDraft(driftId, userId, StatusChanged,
                 "Status changed from " + FormatStatus(oldV) + " to " + FormatStatus(newV),
                 EncodeOptional(Some([("status", Plain(oldV))])),
                 EncodeOptional(Some([("status", Plain(newV))])))
    else if field == "assigned_to_id" && oldV != newV then
      EventDraft(driftId, userId,
                 if IsUnassignment(newV) then Unassigned else Assigned,
                 if IsUnassignment(newV) then "Drift unassigned" else "Assigned to user " + PyStr(newV),
                 EncodeOptional(Some([("assigned_to_id", oldV)])),
                 EncodeOptional(Some([("assigned_to_id", newV)])))
    else
      EventDraft(driftId, userId, Updated,
                 "Updated " + field + ": " + PyStr(oldV) + " \U{2192} " + PyStr(newV),
                 EncodeOptional(Some([(field, Plain(oldV))])),
                 EncodeOptional(Some([(field, Plain(newV))])))
  }

  function IsLogged(oldValues: map<string, Value>): ((string, Value)) -> bool {
    (fv: (string, Value)) => fv.0 in oldValues
  }

  /** The events `log_drift_update` adds, in the iteration order of `newValues`. */
  function UpdateEvents(driftId: int, userId: int, oldValues: map<string, Value>,
                        newValues: seq<(string, Value)>): seq<EventDraft>
  {
    if newValues == [] then []
    else
      var prev := UpdateEvents(driftId, userId, oldValues, newValues[..|newValues| - 1]);
      var last := newValues[|newValues| - 1];
      if last.0 in oldValues then prev + [FieldEventDraft(driftId, userId, last.0, oldValues[last.0], last.1)]
      else prev
  }

  /** One event per field present in both dictionaries and none for a field missing from
      `oldValues`; every event concerns the given drift and user. */
  lemma {:induction false} UpdateEventsCount(driftId: int, userId: int, oldValues: map<string, Value>,
                                             newValues: seq<(string, Value)>)
    ensures |UpdateEvents(driftId, userId, oldValues, newValues)| == |Filter(newValues, IsLogged(oldValues))|
    ensures forall e :: e in UpdateEvents(driftId, userId, oldValues, newValues) ==>
      e.driftId == driftId && e.userId == userId
  {
    if newValues != [] {
      var init := newValues[..|newValues| - 1];
      var last := newValues[|newValues| - 1];
      UpdateEventsCount(driftId, userId, oldValues, init);
      assert newValues == init + [last];
      FilterAppend(init, [last], IsLogged(oldValues));
      assert Filter([last], IsLogged(oldValues)) == if last.0 in oldValues then [last] else [];
    }
  }

  /** The body of the loop of `log_drift_update` for a field present in both dictionaries: one
      event, the one `FieldEventDraft` describes, is added. */
  method LogFieldChange(db: Database, driftId: int, userId: int, field: string, oldValue: Value, newValue: Value)
    returns (e: Event)
    modifies db`events, db`nextEventId
    ensures DraftOfEvent(e) == FieldEventDraft(driftId, userId, field, oldValue, newValue)
    ensures db.events == old(db.events) + [e]
    ensures db.nextEventId == old(db.nextEventId) + 1
  {
    if field == "status" && oldValue != newValue {
      e := CreateEvent(db, driftId, userId, StatusChanged,
                       "Status changed from " + FormatStatus(oldValue) + " to " + FormatStatus(newValue),
                       Some([("status", Plain(oldValue))]), Some([("status", Plain(newValue))]));
    } else if field == "assigned_to_id" && oldValue != newValue {
      var eventType, description;
      if newValue == VNone || newValue == VInt(0) {
        eventType, description := Unassigned, "Drift unassigned";
      } else {
        eventType, description := Assigned, "Assigned to user " + PyStr(newValue);
      }
      e := CreateEvent(db, driftId, userId, eventType, description,
                       Some([("assigned_to_id", oldValue)]), Some([("assigned_to_id", newValue)]));
    } else {
      e := CreateEvent(db, driftId, userId, Updated,
                       "Updated " + field + ": " + PyStr(oldValue) + " \U{2192} " + PyStr(newValue),
                       Some([(field, Plain(oldValue))]), Some([(field, Plain(newValue))]));
    }
  }

  /** Appending an event to the table adds its draft to the drafts of the rows after `n`. */
  lemma DraftsAppended(events: seq<Event>, n: nat, e: Event)
    requires n <= |events|
    ensures (events + [e])[..n] == events[..n]
    ensures DraftsOfEvents((events + [e])[n..]) == DraftsOfEvents(events[n..]) + [DraftOfEvent(e)]
  {
    assert (events + [e])[n..] == events[n..] + [e];
  }

  /** `log_drift_update`: the events of `UpdateEvents`, appended one at a time. */
  method LogDriftUpdate(db: Database, driftId: int, userId: int, oldValues: map<string, Value>,
                        newValues: seq<(string, Value)>)
    modifies db`events, db`nextEventId
    ensures |db.events| >= |old(db.events)| && db.events[..|old(db.events)|] == old(db.events)
    ensures DraftsOfEvents(db.events[|old(db.events)|..]) == UpdateEvents(driftId, userId, oldValues, newValues)
  {
    ghost var before := db.events;
    var i := 0;
    while i < |newValues|
      invariant 0 <= i <= |newValues|
      invariant |db.events| >= |before| && db.events[..|before|] == before
      invariant DraftsOfEvents(db.events[|before|..]) == UpdateEvents(driftId, userId, oldValues, newValues[..i])
    {
      var field := newValues[i].0;
      var newValue := newValues[i].1;
      if field in oldValues {
        ghost var events := db.events;
        var e := LogFieldChange(db, driftId, userId, field, oldValues[field], newValue);
        DraftsAppended(events, |before|, e);
      }
      assert newValues[..i + 1][..i] == newValues[..i];
      i := i + 1;
    }
    assert newValues[..i] == newValues;
  }

  /** `log_comment_added`: one COMMENT_ADDED event whose description carries the excerpt and
      whose new value carries the whole content. */
  method LogCommentAdded(db: Database, driftId: int, userId: int, content: string) returns (e: Event)
    modifies db`events, db`nextEventId
    ensures e.eventType == CommentAdded && e.driftId == driftId && e.userId == userId
    ensures e.description == "Added comment: " + CommentExcerpt(content)
    ensures e.oldValue == None && e.newValue == Some(Json([("comment_content", VStr(content))]))
    ensures db.events == old(db.events) + [e]
  {
    e := CreateEvent(db, driftId, userId, CommentAdded, "Added comment: " + CommentExcerpt(content),
                     None, Some([("comment_content", VStr(content))]));
  }

  function OfDrift(driftId: int): Event -> bool {
    (e: Event) => e.driftId == driftId
  }

  /** `limit` when the caller leaves it out. */
  const DefaultEventLimit := 50

  /** `get_drift_events`: only that drift's events, newest first, skipping `offset` and taking
      at most `limit`; an argument left out (`None`) takes its default, so the plain call gives
      the `DefaultEventLimit` newest events. */
  function GetDriftEvents(events: seq<Event>, driftId: int, limit: Option<nat>, offset: Option<nat>): (r: seq<Event>)
    ensures |r| <= OrDefault(limit, DefaultEventLimit)
    ensures forall e :: e in r ==> e in events && e.driftId == driftId
    ensures r == NewestFirst(Filter(events, OfDrift(driftId)), OrDefault(offset, 0), OrDefault(limit, DefaultEventLimit))
    ensures limit.None? && offset.None? ==>
      var mine := Filter(events, OfDrift(driftId));
      && |r| == Min(DefaultEventLimit, |mine|)
      && forall k :: 0 <= k < |r| ==> r[k] == mine[|mine| - 1 - k]
  {
    NewestFirst(Filter(events, OfDrift(driftId)), OrDefault(offset, 0), OrDefault(limit, DefaultEventLimit))
  }
}
