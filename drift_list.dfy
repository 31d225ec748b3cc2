/** frontend/src/components/Drifts/DriftList.jsx: the list of drifts with its four filters. The
    awaited list call is a parameter, and the query parameters the page sends with it are the
    fetch's result. */
module DriftList {
  import opened Common
  import opened ApiClient

  const FetchFailed := "Failed to fetch drifts"
  const AdjustFilters := "Try adjusting your filters or search terms"
  const GetStarted := "Get started by creating your first drift"

  /** The filters when the page opens: every one empty. */
  const NoFilters: map<string, string> := map["status" := "", "priority" := "", "assigned_to" := "", "search" := ""]

  /** The filters that are set: each key whose value is a non-empty string, with that value. */
  function ActiveFilters(filters: map<string, string>): map<string, string> {
    map k | k in filters && filters[k] != "" :: filters[k]
  }

  /** The query parameters `fetchDrifts` builds, one filter at a time: the filters with a
      non-empty value are copied, with the same value, and no other key is. Which key the loop
      visits first does not matter. */
  method BuildParams(filters: map<string, string>) returns (params: map<string, string>)
    ensures forall k :: k in params <==> k in filters && filters[k] != ""
    ensures forall k :: k in params ==> params[k] == filters[k]
    ensures params == ActiveFilters(filters)
  {
    params := map[];
    var remaining := filters.Keys;
    while remaining != {}
      invariant remaining <= filters.Keys
      invariant forall k :: k in params <==> k in filters && k !in remaining && filters[k] != ""
      invariant forall k :: k in params ==> params[k] == filters[k]
      decreases remaining
    {
      var key :| key in remaining;
      if filters[key] != "" {
        params := params[key := filters[key]];
      }
      remaining := remaining - {key};
    }
  }

  /** `Object.values(filters).some(v => v)`: some filter is set. */
  predicate AnyFilterSet(filters: map<string, string>) {
    exists k :: k in filters && filters[k] != ""
  }

  /** The hint under "No drifts found". */
  function EmptyStateText(filters: map<string, string>): (text: string)
    ensures text == AdjustFilters <==> AnyFilterSet(filters)
    ensures text == GetStarted <==> !AnyFilterSet(filters)
  {
    if AnyFilterSet(filters) then AdjustFilters else GetStarted
  }

  /** Whether the empty list offers the "Create Drift" link. */
  function ShowsCreateLink(filters: map<string, string>): (shown: bool)
    ensures shown <==> forall k :: k in filters ==> filters[k] == ""
  {
    !AnyFilterSet(filters)
  }

  /** The empty list suggests changing the filters exactly when the last fetch sent a filter, and
      offers the create link exactly when it sent none. */
  lemma EmptyStateFollowsParams(filters: map<string, string>)
    ensures EmptyStateText(filters) == AdjustFilters <==> ActiveFilters(filters) != map[]
    ensures ShowsCreateLink(filters) <==> ActiveFilters(filters) == map[]
  {
    if AnyFilterSet(filters) {
      var k :| k in filters && filters[k] != "";
      assert k in ActiveFilters(filters);
    } else {
      assert forall k :: k !in ActiveFilters(filters);
    }
  }

  /** `status.replace('_', ' ')`: a string pattern, so only the first underscore becomes a
      space. */
  function StatusLabel(status: string): (r: string)
    ensures |r| == |status|
    ensures forall k :: 0 <= k < |status| && status[k] != '_' ==> r[k] == status[k]
    ensures forall k :: 0 <= k < |status| && status[k] == '_' ==>
      r[k] == (if NoUnderscoreBefore(status, k) then ' ' else '_')
  {
    if status == [] then []
    else if status[0] == '_' then [' '] + status[1..]
    else [status[0]] + StatusLabel(status[1..])
  }

  /** No underscore among the first `n` characters of `s`. */
  predicate NoUnderscoreBefore(s: string, n: int)
    requires 0 <= n <= |s|
  {
    forall j :: 0 <= j < n ==> s[j] != '_'
  }

  /** A status with no underscore ("open", "resolved", "closed") is shown as it is. */
  lemma StatusLabelPlain(status: string)
    requires forall k :: 0 <= k < |status| ==> status[k] != '_'
    ensures StatusLabel(status) == status
  {
  }

  /** Only the first underscore becomes a space: whatever follows it, underscores included, is
      shown as it is, so "in_progress" reads "in progress". */
  lemma {:induction false} StatusLabelFirstOnly(head: string, tail: string)
    requires forall k :: 0 <= k < |head| ==> head[k] != '_'
    ensures StatusLabel(head + "_" + tail) == head + " " + tail
  {
    if head != [] {
      assert (head + "_" + tail)[1..] == head[1..] + "_" + tail;
      StatusLabelFirstOnly(head[1..], tail);
    } else {
      assert head + "_" + tail == "_" + tail;
    }
  }

  /** The page's state cells. */
  class DriftListState {
    var filters: map<string, string>
    var drifts: JsValue
    var loading: bool
    var error: JsValue

    /** No drifts yet, loading, no error, no filter set. */
    constructor()
      ensures filters == NoFilters && drifts == Arr([]) && loading && error == Null
    {
      filters := NoFilters;
      drifts := Arr([]);
      loading := true;
      error := Null;
    }

    /** `fetchDrifts`: the list is asked for with the set filters as query parameters; the
        answer's `drifts`, or an empty list when it has none, replaces the list and clears the
        error, and a failure keeps the list and records the message. Loading is over either way. */
    method FetchDrifts(outcome: Settled<JsValue>) returns (params: map<string, string>)
      modifies this`drifts, this`loading, this`error
      ensures params == ActiveFilters(filters)
      ensures !loading
      ensures outcome.Resolved? ==> drifts == Or(Prop(outcome.value, "drifts"), Arr([])) && error == Null
      ensures outcome.Resolved? ==> Truthy(drifts)
      ensures outcome.Rejected? ==> drifts == old(drifts) && error == Or(outcome.reason.message, Str(FetchFailed))
    {
      loading := true;
      params := BuildParams(filters);
      match outcome {
        case Resolved(response) =>
          drifts := Or(Prop(response, "drifts"), Arr([]));
          error := Null;
        case Rejected(err) =>
          error := Or(err.message, Str(FetchFailed));
      }
      loading := false;
    }

    /** `handleFilterChange`: the named filter takes the value and every other one keeps its
        own. */
    method HandleFilterChange(key: string, value: string)
      modifies this`filters
      ensures filters == old(filters)[key := value]
      ensures key in filters && filters[key] == value
      ensures forall k :: k != key ==> (k in filters <==> k in old(filters))
      ensures forall k :: k != key && k in old(filters) ==> filters[k] == old(filters)[k]
    {
      filters := filters[key := value];
    }
  }

  /** Changing one filter changes the query parameters at that key only: the key is sent with
      the new value when it is non-empty and dropped when it is empty. */
  lemma FilterChangeParams(filters: map<string, string>, key: string, value: string)
    ensures value != "" ==> ActiveFilters(filters[key := value]) == ActiveFilters(filters)[key := value]
    ensures value == "" ==> ActiveFilters(filters[key := value]) == ActiveFilters(filters) - {key}
  {
  }
}
