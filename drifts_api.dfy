/** backend/app/api/drifts.py: creating, listing, reading and updating drifts. Every endpoint
    runs for the user the authentication dependency resolved (`caller`). */
module DriftsApi {
  import opened Common
  import opened Models

  const DriftNotFound := HttpError(404, "Drift not found")
  const AssigneeNotFound := HttpError(400, "Assigned user not found")

  /** A drift as the endpoints return it, with its creator and assignee loaded. */
  datatype DriftView = DriftView(drift: Drift, createdBy: Option<User>, assignedTo: Option<User>)

  /** Loading the `created_by` and `assigned_to` relationships of a drift. */
  function ViewOf(d: Drift, users: seq<User>): (v: DriftView)
    ensures v.drift == d
    ensures v.createdBy.Some? ==> v.createdBy.value in users && v.createdBy.value.id == d.createdById
    ensures v.assignedTo.Some? ==>
      v.assignedTo.value in users && d.assignedToId == Some(v.assignedTo.value.id)
  {
    DriftView(d, UserById(users, d.createdById),
              if IsSetId(d.assignedToId) then UserById(users, d.assignedToId.value) else None)
  }

  /** A relationship is empty only when no user has the referenced id. */
  lemma ViewOfMissing(d: Drift, users: seq<User>)
    ensures ViewOf(d, users).createdBy.None? <==> forall u :: u in users ==> u.id != d.createdById
    ensures ViewOf(d, users).assignedTo.None? <==>
      !IsSetId(d.assignedToId) || forall u :: u in users ==> u.id != d.assignedToId.value
  {
  }

  // ---------------------------------------------------------------------------
  // Create

  /** The request body of `POST /`; a priority left out of the body is `None`. */
  datatype DriftCreate = DriftCreate(
    title: string,
    description: Option<string>,
    priority: Option<DriftPriority>,
    assignedToId: Option<int>)

  /** The schema's default priority. */
  const DefaultPriority := Medium

  /** `POST /`: 400 and nothing inserted when a truthy `assigned_to_id` names no user; otherwise
      one OPEN drift, created by the caller, with the request's title, description and assignee and
      its priority or else MEDIUM, is appended. The answer's creator is the caller's own record, not a lookup. */
  method CreateDrift(db: Database, caller: User, data: DriftCreate) returns (r: Result<DriftView>)
    modifies db`drifts, db`nextDriftId
    ensures r.Err? <==> IsSetId(data.assignedToId) && forall u :: u in db.users ==> u.id != data.assignedToId.value
    ensures r.Err? ==> r.error == AssigneeNotFound && db.drifts == old(db.drifts) && db.nextDriftId == old(db.nextDriftId)
    ensures r.Ok? ==>
      var d := Drift(old(db.nextDriftId), data.title, data.description, Open, OrDefault(data.priority, DefaultPriority),
                     caller.id, data.assignedToId);
      && db.drifts == old(db.drifts) + [d]
      && db.nextDriftId == old(db.nextDriftId) + 1
      && r.value == ViewOf(d, db.users).(createdBy := Some(caller))
    ensures r.Ok? && data.priority.None? ==> r.value.drift.priority == Medium
  {
    if IsSetId(data.assignedToId) && UserById(db.users, data.assignedToId.value).None? {
      return Err(AssigneeNotFound);
    }
    var d := Drift(db.nextDriftId, data.title, data.description, Open, OrDefault(data.priority, DefaultPriority),
                   caller.id, data.assignedToId);
    db.drifts := db.drifts + [d];
    db.nextDriftId := db.nextDriftId + 1;
    return Ok(ViewOf(d, db.users).(createdBy := Some(caller)));
  }

  // ---------------------------------------------------------------------------
  // Search: SQL `ILIKE`

  /** SQL `LIKE`: `%` matches any run of characters, `_` any one character. */
  function Like(s: string, p: string): bool
    decreases |s| + |p|
  {
    if p == [] then s == []
    else if p[0] == '%' then Like(s, p[1..]) || (s != [] && Like(s[1..], p))
    else s != [] && (p[0] == '_' || p[0] == s[0]) && Like(s[1..], p[1..])
  }

  /** `text ILIKE '%search%'`, the comparison made on ASCII lower case. */
  predicate SearchMatches(text: string, search: string) {
    Like(LowerString(text), "%" + LowerString(search) + "%")
  }

  predicate NoWildcards(q: string) {
    forall i :: 0 <= i < |q| ==> q[i] != '%' && q[i] != '_'
  }

  /** `q` occurs somewhere in `s`. */
  predicate IsInfix(q: string, s: string) {
    exists i :: 0 <= i <= |s| && q <= s[i..]
  }

  lemma {:induction false} LikeAnything(s: string)
    ensures Like(s, "%")
  {
    if s != [] {
      LikeAnything(s[1..]);
    }
  }

  /** A literal followed by `%` matches exactly the strings it is a prefix of. */
  lemma {:induction false} LikeLiteralPrefix(s: string, q: string)
    requires NoWildcards(q)
    ensures Like(s, q + "%") <==> q <= s
  {
    if q == [] {
      assert q + "%" == "%";
      LikeAnything(s);
    } else {
      var p := q + "%";
      assert p[0] == q[0] && p[1..] == q[1..] + "%";
      if s != [] {
        LikeLiteralPrefix(s[1..], q[1..]);
      }
    }
  }

  /** A leading `%` lets the rest of the pattern match any suffix. */
  lemma {:induction false} LikePercentThen(s: string, r: string)
    ensures Like(s, "%" + r) <==> exists i :: 0 <= i <= |s| && Like(s[i..], r)
  {
    var p := "%" + r;
    assert p[0] == '%' && p[1..] == r;
    assert s[0..] == s;
    if s != [] {
      LikePercentThen(s[1..], r);
      if Like(s, p) && !Like(s, r) {
        var i :| 0 <= i <= |s[1..]| && Like(s[1..][i..], r);
        assert s[1..][i..] == s[i + 1..];
      }
      if exists i :: 0 <= i <= |s| && Like(s[i..], r) {
        var i :| 0 <= i <= |s| && Like(s[i..], r);
        if i > 0 {
          assert s[1..][i - 1..] == s[i..];
        }
      }
    } else if exists i :: 0 <= i <= |s| && Like(s[i..], r) {
      var i :| 0 <= i <= |s| && Like(s[i..], r);
      assert i == 0;
    }
  }

  /** Without wildcards in it, the search is a case-insensitive substring test. */
  lemma SearchIsSubstring(text: string, search: string)
    requires NoWildcards(search)
    ensures SearchMatches(text, search) <==> IsInfix(LowerString(search), LowerString(text))
  {
    var s := LowerString(text);
    var q := LowerString(search);
    assert NoWildcards(q);
    assert "%" + q + "%" == "%" + (q + "%");
    LikePercentThen(s, q + "%");
    if SearchMatches(text, search) {
      var i :| 0 <= i <= |s| && Like(s[i..], q + "%");
      LikeLiteralPrefix(s[i..], q);
    }
    if IsInfix(q, s) {
      var i :| 0 <= i <= |s| && q <= s[i..];
      LikeLiteralPrefix(s[i..], q);
    }
  }

  // ---------------------------------------------------------------------------
  // List

  /** The optional query filters of `GET /`. */
  datatype DriftFilters = DriftFilters(
    status: Option<DriftStatus>,
    priority: Option<DriftPriority>,
    assignedTo: Option<int>,
    createdBy: Option<int>,
    search: Option<string>)

  /** The conjunction of the filters the query applies: status and priority when given, the two
      user ids and the search text only when truthy; a drift without a description is found by
      its title alone. */
  function Matches(f: DriftFilters): Drift -> bool {
    (d: Drift) => IsMatch(f, d)
  }

  predicate IsMatch(f: DriftFilters, d: Drift) {
      && (f.status.Some? ==> d.status == f.status.value)
      && (f.priority.Some? ==> d.priority == f.priority.value)
      && (IsSetId(f.assignedTo) ==> d.assignedToId == f.assignedTo)
      && (IsSetId(f.createdBy) ==> d.createdById == f.createdBy.value)
      && (f.search.Some? && f.search.value != "" ==>
            SearchMatches(d.title, f.search.value)
            || (d.description.Some? && SearchMatches(d.description.value, f.search.value)))
  }

  /** What the filters mean for a search text without SQL wildcards: a drift is listed iff it has
      the given status and priority, the truthy assignee and creator ids, and, for a non-empty
      search, its title or description contains the search text, ignoring ASCII case. With no
      filter at all every drift is listed. */
  lemma MatchesMeaning(f: DriftFilters, d: Drift)
    requires f.search.Some? ==> NoWildcards(f.search.value)
    ensures Matches(f)(d) <==>
      && (f.status.Some? ==> d.status == f.status.value)
      && (f.priority.Some? ==> d.priority == f.priority.value)
      && (IsSetId(f.assignedTo) ==> d.assignedToId == f.assignedTo)
      && (IsSetId(f.createdBy) ==> d.createdById == f.createdBy.value)
      && (f.search.Some? && f.search.value != "" ==>
            var q := LowerString(f.search.value);
            IsInfix(q, LowerString(d.title))
            || (d.description.Some? && IsInfix(q, LowerString(d.description.value))))
    ensures f == DriftFilters(None, None, None, None, None) ==> Matches(f)(d)
  {
    if f.search.Some? && f.search.value != "" {
      SearchIsSubstring(d.title, f.search.value);
      if d.description.Some? {
        SearchIsSubstring(d.description.value, f.search.value);
      }
    }
  }

  /** `limit` and `sort_order` when the query leaves them out. */
  const DefaultLimit := 20
  const DefaultOrder := "desc"

  /** The listing body; `limit` and `offset` are echoed back. */
  datatype DriftList = DriftList(drifts: seq<DriftView>, total: nat, limit: int, offset: int)

  /** The matching drifts in `created_at` order, ascending or descending. */
  function Ordered(s: seq<Drift>, sortOrder: string): (r: seq<Drift>)
    ensures |r| == |s|
    ensures forall k :: 0 <= k < |s| ==> r[k] == if sortOrder == "desc" then s[|s| - 1 - k] else s[k]
    ensures forall x :: x in r ==> x in s
  {
    if sortOrder == "desc" then
      var r := Reverse(s);
      assert forall k :: 0 <= k < |r| ==> r[k] in s;
      r
    else s
  }

  /** The views of a sequence of drifts, one per drift in the same order. */
  function ViewsOf(s: seq<Drift>, users: seq<User>): (r: seq<DriftView>)
    ensures |r| == |s|
    ensures forall k :: 0 <= k < |s| ==> r[k] == ViewOf(s[k], users)
    ensures forall v :: v in r ==> v.drift in s
  {
    if s == [] then [] else ViewsOf(s[..|s| - 1], users) + [ViewOf(s[|s| - 1], users)]
  }

  /** The drifts one page of the listing shows: the matches in the requested order, from
      `offset`, at most `limit` of them. */
  function ListingPage(drifts: seq<Drift>, f: DriftFilters, sortOrder: string, offset: nat, limit: nat): (r: seq<Drift>)
    ensures |r| == if offset >= |Filter(drifts, Matches(f))| then 0 else Min(limit, |Filter(drifts, Matches(f))| - offset)
    ensures forall x :: x in r ==> x in drifts && IsMatch(f, x)
    ensures var m := Filter(drifts, Matches(f));
      forall k :: 0 <= k < |r| ==>
        r[k] == if sortOrder == "desc" then m[|m| - 1 - (offset + k)] else m[offset + k]
  {
    Page(Ordered(Filter(drifts, Matches(f)), sortOrder), offset, limit)
  }

  /** Loads the users of each drift of a page, one view per drift in order. */
  method LoadViews(page: seq<Drift>, users: seq<User>) returns (views: seq<DriftView>)
    ensures views == ViewsOf(page, users)
  {
    views := [];
    var k := 0;
    while k < |page|
      invariant 0 <= k <= |page|
      invariant |views| == k
      invariant forall j :: 0 <= j < k ==> views[j] == ViewOf(page[j], users)
    {
      views := views + [ViewOf(page[k], users)];
      k := k + 1;
    }
    assert views == ViewsOf(page, users);
  }

  /** With every paging parameter left out, the page is the `DefaultLimit` newest matches. */
  lemma DefaultListingPage(drifts: seq<Drift>, f: DriftFilters)
    ensures var m, p := Filter(drifts, Matches(f)), ListingPage(drifts, f, DefaultOrder, 0, DefaultLimit);
      && |p| == Min(DefaultLimit, |m|)
      && forall k :: 0 <= k < |p| ==> p[k] == m[|m| - 1 - k]
  {
  }

  /** `GET /`: 422 unless `1 <= limit <= 100`, `offset >= 0` and `sort_order` is `asc` or `desc`;
      otherwise the drifts matching every filter, ordered by creation, from `offset`, at most
      `limit`, each with its users loaded, and `total` counting every match. A query parameter
      left out (`None`) takes its default: the `DefaultLimit` newest matches. */
  method ListDrifts(db: Database, f: DriftFilters, limit: Option<int>, offset: Option<int>, sortOrder: Option<string>)
    returns (r: Result<DriftList>)
    ensures var l, o, s := OrDefault(limit, DefaultLimit), OrDefault(offset, 0), OrDefault(sortOrder, DefaultOrder);
      r.Err? <==> !(1 <= l <= 100 && o >= 0 && (s == "asc" || s == "desc"))
    ensures r.Err? ==> r.error == Unprocessable
    ensures r.Ok? ==>
      var l, o, s := OrDefault(limit, DefaultLimit), OrDefault(offset, 0), OrDefault(sortOrder, DefaultOrder);
      && r.value.total == |Filter(db.drifts, Matches(f))|
      && r.value.drifts == ViewsOf(ListingPage(db.drifts, f, s, o, l), db.users)
      && r.value.limit == l && r.value.offset == o
    ensures limit.None? && offset.None? && sortOrder.None? ==>
      var m := Filter(db.drifts, Matches(f));
      && r.Ok?
      && |r.value.drifts| == Min(DefaultLimit, |m|)
      && forall k :: 0 <= k < |r.value.drifts| ==> r.value.drifts[k].drift == m[|m| - 1 - k]
  {
    var l, o, s := OrDefault(limit, DefaultLimit), OrDefault(offset, 0), OrDefault(sortOrder, DefaultOrder);
    if !(1 <= l <= 100 && o >= 0 && (s == "asc" || s == "desc")) {
      return Err(Unprocessable);
    }
    var total := |Filter(db.drifts, Matches(f))|;
    var views := LoadViews(ListingPage(db.drifts, f, s, o, l), db.users);
    if limit.None? && offset.None? && sortOrder.None? {
      DefaultListingPage(db.drifts, f);
    }
    return Ok(DriftList(views, total, l, o));
  }

  // ---------------------------------------------------------------------------
  // Get

  /** `GET /{id}`: the drift with that id and its users, or 404 when there is none. */
  function GetDrift(drifts: seq<Drift>, users: seq<User>, driftId: int): (r: Result<DriftView>)
    ensures r.Err? <==> forall d :: d in drifts ==> d.id != driftId
    ensures r.Err? ==> r.error == DriftNotFound
    ensures r.Ok? ==> r.value.drift in drifts && r.value.drift.id == driftId && r.value == ViewOf(r.value.drift, users)
  {
    match FindFirst(drifts, DriftHasId(driftId))
    case None => Err(DriftNotFound)
    case Some(i) => Ok(ViewOf(drifts[i], users))
  }

  // ---------------------------------------------------------------------------
  // Update

  /** The request body of `PATCH /{id}`: `None` is a field the client left unset. Description and
      assignee may be set to null (`Some(None)`). */
  datatype DriftUpdate = DriftUpdate(
    title: Option<string>,
    description: Option<Option<string>>,
    status: Option<DriftStatus>,
    priority: Option<DriftPriority>,
    assignedToId: Option<Option<int>>)

  /** The updatable columns. */
  datatype Field = Title | Description | Status | Priority | AssignedToId

  /** The column's attribute name. */
  function FieldName(f: Field): string {
    match f
    case Title => "title"
    case Description => "description"
    case Status => "status"
    case Priority => "priority"
    case AssignedToId => "assigned_to_id"
  }

  /** The columns in the order the update schema declares them. */
  const DriftFields: seq<Field> := [Title, Description, Status, Priority, AssignedToId]

  function OptStr(o: Option<string>): Value {
    if o.Some? then VStr(o.value) else VNone
  }

  function OptInt(o: Option<int>): Value {
    if o.Some? then VInt(o.value) else VNone
  }

  /** `getattr(drift, field)` */
  function GetField(d: Drift, f: Field): Value {
    match f
    case Title => VStr(d.title)
    case Description => OptStr(d.description)
    case Status => VStatus(d.status)
    case Priority => VPriority(d.priority)
    case AssignedToId => OptInt(d.assignedToId)
  }

  /** A value the column can hold. */
  predicate FitsField(f: Field, v: Value) {
    match f
    case Title => v.VStr?
    case Description => v.VStr? || v.VNone?
    case Status => v.VStatus?
    case Priority => v.VPriority?
    case AssignedToId => v.VInt? || v.VNone?
  }

  /** `setattr(drift, field, v)`: that column takes the value and every other column keeps its own. */
  function SetField(d: Drift, f: Field, v: Value): (r: Drift)
    requires FitsField(f, v)
    ensures GetField(r, f) == v
    ensures forall g :: g != f ==> GetField(r, g) == GetField(d, g)
    ensures r.id == d.id && r.createdById == d.createdById
  {
    match f
    case Title => d.(title := v.s)
    case Description => d.(description := if v.VStr? then Some(v.s) else None)
    case Status => d.(status := v.status)
    case Priority => d.(priority := v.priority)
    case AssignedToId => d.(assignedToId := if v.VInt? then Some(v.i) else None)
  }

  /** The value the client set for a column, if it set one. */
  function FieldValue(u: DriftUpdate, f: Field): (r: Option<Value>)
    ensures r.Some? ==> FitsField(f, r.value)
  {
    match f
    case Title => if u.title.Some? then Some(VStr(u.title.value)) else None
    case Description => if u.description.Some? then Some(OptStr(u.description.value)) else None
    case Status => if u.status.Some? then Some(VStatus(u.status.value)) else None
    case Priority => if u.priority.Some? then Some(VPriority(u.priority.value)) else None
    case AssignedToId => if u.assignedToId.Some? then Some(OptInt(u.assignedToId.value)) else None
  }

  function KeysOf(s: seq<(Field, Value)>): set<Field> {
    set fv | fv in s :: fv.0
  }

  predicate DistinctKeys(data: seq<(Field, Value)>) {
    forall i, j :: 0 <= i < j < |data| ==> data[i].0 != data[j].0
  }

  /** The set columns among `fields`, in their order, each with the value set. */
  function SetPairs(u: DriftUpdate, fields: seq<Field>): (r: seq<(Field, Value)>)
    requires forall i, j :: 0 <= i < j < |fields| ==> fields[i] != fields[j]
    ensures forall k :: 0 <= k < |r| ==> r[k].0 in fields && FieldValue(u, r[k].0) == Some(r[k].1)
    ensures forall f :: f in fields ==> (f in KeysOf(r) <==> FieldValue(u, f).Some?)
    ensures DistinctKeys(r)
  {
    if fields == [] then []
    else
      var rest := SetPairs(u, fields[1..]);
      assert forall k :: 0 <= k < |rest| ==> rest[k].0 != fields[0];
      var v := FieldValue(u, fields[0]);
      var r := if v.Some? then [(fields[0], v.value)] + rest else rest;
      assert KeysOf(r) == (if v.Some? then {fields[0]} else {}) + KeysOf(rest);
      r
  }

  /** `drift_update.model_dump(exclude_unset=True)`: the columns the client set, each once, with
      the value it set. */
  function UpdateData(u: DriftUpdate): (data: seq<(Field, Value)>)
    ensures forall k :: 0 <= k < |data| ==> FieldValue(u, data[k].0) == Some(data[k].1)
    ensures forall f :: f in KeysOf(data) <==> FieldValue(u, f).Some?
    ensures DistinctKeys(data)
  {
    SetPairs(u, DriftFields)
  }

  /** The set column differs from the stored value. */
  function ChangedFrom(d: Drift): ((Field, Value)) -> bool {
    (fv: (Field, Value)) => GetField(d, fv.0) != fv.1
  }

  /** With distinct keys, the key at `i` is not among the earlier ones. */
  lemma KeysStep(data: seq<(Field, Value)>, i: nat)
    requires DistinctKeys(data) && i < |data|
    ensures data[i].0 !in KeysOf(data[..i])
    ensures KeysOf(data[..i + 1]) == KeysOf(data[..i]) + {data[i].0}
  {
    assert data[..i + 1] == data[..i] + [data[i]];
    forall fv | fv in data[..i]
      ensures fv.0 != data[i].0
    {
      var k :| 0 <= k < i && data[..i][k] == fv;
    }
  }

  lemma KeysAppend(s: seq<(Field, Value)>, fv: (Field, Value))
    ensures KeysOf(s + [fv]) == KeysOf(s) + {fv.0}
  {
    assert forall x :: x in s + [fv] <==> x in s || x == fv;
  }

  predicate AllFit(data: seq<(Field, Value)>) {
    forall k :: 0 <= k < |data| ==> FitsField(data[k].0, data[k].1)
  }

  /** The drift after the loop of `update_drift` has run over `data`: each column whose current
      value differs from the requested one is set. */
  function Applied(d: Drift, data: seq<(Field, Value)>): Drift
    requires AllFit(data)
  {
    if data == [] then d
    else
      var prev := Applied(d, data[..|data| - 1]);
      var last := data[|data| - 1];
      if GetField(prev, last.0) != last.1 then SetField(prev, last.0, last.1) else prev
  }

  /** The `new_values` the loop records over `data`, in order. */
  function Recorded(d: Drift, data: seq<(Field, Value)>): seq<(Field, Value)>
    requires AllFit(data)
  {
    if data == [] then []
    else
      var prev := Applied(d, data[..|data| - 1]);
      var last := data[|data| - 1];
      Recorded(d, data[..|data| - 1]) + if GetField(prev, last.0) != last.1 then [last] else []
  }

  /** The `old_values` the loop records over `data`. */
  function OldValues(d: Drift, data: seq<(Field, Value)>): map<Field, Value>
    requires AllFit(data)
  {
    if data == [] then map[]
    else
      var prev := Applied(d, data[..|data| - 1]);
      var last := data[|data| - 1];
      var rest := OldValues(d, data[..|data| - 1]);
      if GetField(prev, last.0) != last.1 then rest[last.0 := GetField(prev, last.0)] else rest
  }

  /** With each column requested once, the loop sets every requested column to its value and
      keeps every other one. */
  lemma {:induction false} AppliedSets(d: Drift, data: seq<(Field, Value)>)
    requires AllFit(data) && DistinctKeys(data)
    ensures Applied(d, data).id == d.id && Applied(d, data).createdById == d.createdById
    ensures forall k :: 0 <= k < |data| ==> GetField(Applied(d, data), data[k].0) == data[k].1
    ensures forall f :: f !in KeysOf(data) ==> GetField(Applied(d, data), f) == GetField(d, f)
  {
    if data != [] {
      var init := data[..|data| - 1];
      assert AllFit(init) && DistinctKeys(init);
      AppliedSets(d, init);
      KeysStep(data, |data| - 1);
      assert data[..|data|] == data;
      forall k | 0 <= k < |data| - 1
        ensures GetField(Applied(d, data), data[k].0) == data[k].1
      {
        assert data[k] == init[k];
      }
    }
  }

  /** Before the column at the end of `data` is reached, it still holds its stored value. */
  lemma LastUntouched(d: Drift, data: seq<(Field, Value)>)
    requires AllFit(data) && DistinctKeys(data) && data != []
    ensures AllFit(data[..|data| - 1])
    ensures GetField(Applied(d, data[..|data| - 1]), data[|data| - 1].0) == GetField(d, data[|data| - 1].0)
  {
    var init := data[..|data| - 1];
    assert AllFit(init) && DistinctKeys(init);
    AppliedSets(d, init);
    KeysStep(data, |data| - 1);
  }

  /** The loop records exactly the requested columns whose stored value differed. */
  lemma {:induction false} RecordedChanged(d: Drift, data: seq<(Field, Value)>)
    requires AllFit(data) && DistinctKeys(data)
    ensures Recorded(d, data) == Filter(data, ChangedFrom(d))
  {
    if data != [] {
      var init := data[..|data| - 1];
      var last := data[|data| - 1];
      assert data == init + [last];
      assert AllFit(init) && DistinctKeys(init);
      RecordedChanged(d, init);
      LastUntouched(d, data);
      FilterAppend(init, [last], ChangedFrom(d));
      assert Filter([last], ChangedFrom(d)) == if ChangedFrom(d)(last) then [last] else [];
    }
  }

  /** The loop records, for each recorded column, the value it held before. */
  lemma {:induction false} OldValuesRecorded(d: Drift, data: seq<(Field, Value)>)
    requires AllFit(data) && DistinctKeys(data)
    ensures OldValues(d, data).Keys == KeysOf(Recorded(d, data))
    ensures forall f :: f in OldValues(d, data) ==> OldValues(d, data)[f] == GetField(d, f)
  {
    if data != [] {
      var init := data[..|data| - 1];
      var last := data[|data| - 1];
      assert AllFit(init) && DistinctKeys(init);
      OldValuesRecorded(d, init);
      LastUntouched(d, data);
      if GetField(Applied(d, init), last.0) != last.1 {
        KeysAppend(Recorded(d, init), last);
      }
    }
  }

  /** Run over the set columns of a request, the loop sets exactly those columns. */
  lemma UpdateApplied(d: Drift, u: DriftUpdate)
    ensures AllFit(UpdateData(u))
    ensures forall f :: GetField(Applied(d, UpdateData(u)), f) == (if FieldValue(u, f).Some? then FieldValue(u, f).value else GetField(d, f))
    ensures Applied(d, UpdateData(u)).id == d.id && Applied(d, UpdateData(u)).createdById == d.createdById
    ensures Recorded(d, UpdateData(u)) == Filter(UpdateData(u), ChangedFrom(d))
    ensures OldValues(d, UpdateData(u)).Keys == KeysOf(Recorded(d, UpdateData(u)))
    ensures forall f :: f in OldValues(d, UpdateData(u)) ==> OldValues(d, UpdateData(u))[f] == GetField(d, f)
  {
    var data := UpdateData(u);
    AppliedSets(d, data);
    RecordedChanged(d, data);
    OldValuesRecorded(d, data);
    forall f | FieldValue(u, f).Some?
      ensures GetField(Applied(d, data), f) == FieldValue(u, f).value
    {
      assert f in KeysOf(data);
      var fv :| fv in data && fv.0 == f;
      var k :| 0 <= k < |data| && data[k] == fv;
    }
  }

  /** The loop of `update_drift`: every column the client set takes the set value and no other
      column changes; exactly the set columns whose value differed are recorded, the old value in
      `oldValues` and the new one in `newValues` (in request order). */
  method ApplyUpdate(d: Drift, u: DriftUpdate)
    returns (nd: Drift, oldValues: map<Field, Value>, newValues: seq<(Field, Value)>)
    ensures forall f :: GetField(nd, f) == if FieldValue(u, f).Some? then FieldValue(u, f).value else GetField(d, f)
    ensures nd.id == d.id && nd.createdById == d.createdById
    ensures newValues == Filter(UpdateData(u), ChangedFrom(d))
    ensures oldValues.Keys == KeysOf(newValues)
    ensures forall f :: f in oldValues ==> oldValues[f] == GetField(d, f)
  {
    var data := UpdateData(u);
    assert AllFit(data);
    nd, oldValues, newValues := d, map[], [];
    var i := 0;
    while i < |data|
      invariant 0 <= i <= |data|
      invariant nd == Applied(d, data[..i])
      invariant newValues == Recorded(d, data[..i])
      invariant oldValues == OldValues(d, data[..i])
    {
      var field := data[i].0;
      var value := data[i].1;
      var oldValue := GetField(nd, field);
      assert data[..i + 1][..i] == data[..i];
      if oldValue != value {
        oldValues := oldValues[field := oldValue];
        newValues := newValues + [(field, value)];
        nd := SetField(nd, field, value);
      }
      i := i + 1;
    }
    assert data[..i] == data;
    UpdateApplied(d, u);
  }

  /** `PATCH /{id}`: 404 for an unknown drift; 400 when the request sets `assigned_to_id` to a
      non-zero id that names no user; in both cases nothing is stored. Otherwise the drift with
      that id takes every column the client set and keeps the others. */
  method UpdateDrift(db: Database, caller: User, driftId: int, u: DriftUpdate) returns (r: Result<DriftView>)
    modifies db`drifts
    ensures r.Err? && r.error == DriftNotFound <==> forall d :: d in old(db.drifts) ==> d.id != driftId
    ensures r.Err? && r.error == AssigneeNotFound <==>
      (exists d :: d in old(db.drifts) && d.id == driftId)
      && u.assignedToId.Some? && u.assignedToId.value.Some? && u.assignedToId.value.value != 0
      && forall v :: v in db.users ==> v.id != u.assignedToId.value.value
    ensures r.Ok? <==>
      (exists d :: d in old(db.drifts) && d.id == driftId)
      && !(&& u.assignedToId.Some? && u.assignedToId.value.Some? && u.assignedToId.value.value != 0
           && forall v :: v in db.users ==> v.id != u.assignedToId.value.value)
    ensures r.Err? ==> db.drifts == old(db.drifts)
    ensures r.Ok? ==>
      var i := FindFirst(old(db.drifts), DriftHasId(driftId)).value;
      var d := old(db.drifts)[i];
      && |db.drifts| == |old(db.drifts)|
      && db.drifts == old(db.drifts)[i := db.drifts[i]]
      && db.drifts[i].id == driftId && db.drifts[i].createdById == d.createdById
      && (forall f :: GetField(db.drifts[i], f) == if FieldValue(u, f).Some? then FieldValue(u, f).value else GetField(d, f))
      && r.value == ViewOf(db.drifts[i], db.users)
  {
    var found := FindFirst(db.drifts, DriftHasId(driftId));
    if found.None? {
      return Err(DriftNotFound);
    }
    var i := found.value;
    var nd, oldValues, newValues := ApplyUpdate(db.drifts[i], u);
    if u.assignedToId.Some? && u.assignedToId.value.Some? && u.assignedToId.value.value != 0
       && UserById(db.users, u.assignedToId.value.value).None? {
      return Err(AssigneeNotFound);
    }
    db.drifts := db.drifts[i := nd];
    return Ok(ViewOf(nd, db.users));
  }
}
