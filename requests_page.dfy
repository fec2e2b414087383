/**
 * The requests list page: the status, type and search filters of `applyFilters`, the list of
 * request types offered by the type filter, the status badge and the Donate link rule.
 */
module RequestsPage {
  import opened Wrappers
  import opened Text
  import opened Badges
  import Lists

  /** A request as listed on the page; `description` is optional. */
  datatype Request = Request(
    id: string,
    instituteId: string,
    kind: string,
    items: string,
    description: Option<string>,
    amount: int,
    amountRemaining: int,
    status: string,
    instituteName: string)

  /** The status filter; `"all"` keeps every request. */
  predicate StatusPasses(statusFilter: string, r: Request) {
    statusFilter == "all" || r.status == statusFilter
  }

  /** The type filter; `"all"` keeps every request. */
  predicate TypePasses(typeFilter: string, r: Request) {
    typeFilter == "all" || r.kind == typeFilter
  }

  /**
   * The search filter: inactive when the trimmed term is empty; otherwise the lowercased
   * (untrimmed) term must occur in the lowercased institute name, items or description,
   * and a request without description cannot match on it.
   */
  predicate SearchPasses(searchTerm: string, r: Request) {
    IsBlank(searchTerm) ||
      var term := Lower(searchTerm);
      Contains(Lower(r.instituteName), term) || Contains(Lower(r.items), term) ||
      (r.description.Some? && Contains(Lower(r.description.value), term))
  }

  /** A request survives `applyFilters` when it passes all three filters. */
  predicate Matches(statusFilter: string, typeFilter: string, searchTerm: string, r: Request) {
    StatusPasses(statusFilter, r) && TypePasses(typeFilter, r) && SearchPasses(searchTerm, r)
  }

  /** The outcome `applyFilters` must produce: the matching requests, in list order. */
  function Filtered(requests: seq<Request>, statusFilter: string, typeFilter: string, searchTerm: string): (r: seq<Request>)
    ensures Lists.IsSubsequence(r, requests)
    ensures forall k :: 0 <= k < |r| ==> r[k] in requests && Matches(statusFilter, typeFilter, searchTerm, r[k])
    ensures forall k :: 0 <= k < |requests| && Matches(statusFilter, typeFilter, searchTerm, requests[k]) ==> requests[k] in r
    ensures multiset(r) <= multiset(requests)
    ensures forall k :: 0 <= k < |requests| && Matches(statusFilter, typeFilter, searchTerm, requests[k]) ==>
              multiset(r)[requests[k]] == multiset(requests)[requests[k]]
  {
    var matches := (x: Request) => Matches(statusFilter, typeFilter, searchTerm, x);
    Lists.KeepIsSubsequence(requests, matches);
    Lists.KeepCounts(requests, matches);
    Lists.Keep(requests, matches)
  }

  /** With the status and type filters at `"all"` and a blank search, nothing is filtered out. */
  lemma NoActiveFilterKeepsAll(requests: seq<Request>, searchTerm: string)
    requires IsBlank(searchTerm)
    ensures Filtered(requests, "all", "all", searchTerm) == requests
  {
    Lists.KeepAll(requests, (x: Request) => Matches("all", "all", searchTerm, x));
  }

  /** A status filter other than `"all"` keeps only requests with exactly that status. */
  lemma StatusFilterIsExact(requests: seq<Request>, statusFilter: string, typeFilter: string, searchTerm: string)
    requires statusFilter != "all"
    ensures forall k :: 0 <= k < |Filtered(requests, statusFilter, typeFilter, searchTerm)| ==>
              Filtered(requests, statusFilter, typeFilter, searchTerm)[k].status == statusFilter
  {
  }

  /** `getUniqueTypes`: the request types, each once, in order of first occurrence. */
  function UniqueTypes(requests: seq<Request>): (types: seq<string>)
    ensures types == Lists.FirstOccurrences(Lists.Map(requests, (r: Request) => r.kind))
    ensures Lists.NoDuplicates(types)
    ensures forall t :: t in types <==> exists k :: 0 <= k < |requests| && requests[k].kind == t
  {
    var kinds := Lists.Map(requests, (r: Request) => r.kind);
    Lists.InsertAllFirstOccurrences([], kinds);
    Lists.FirstOccurrencesSpec(kinds);
    assert [] + kinds == kinds;
    Lists.InsertAll([], kinds)
  }

  /** The Donate link appears for donors on requests that are not fulfilled. */
  predicate ShowDonate(userType: Option<string>, status: string) {
    userType == Some("donor") && status != "Fulfilled"
  }

  /** The status badge: outlined while pending, the default variant otherwise. */
  function StatusBadge(status: string): (v: BadgeVariant)
    ensures v == Outline <==> status == "Pending"
    ensures v != Destructive
  {
    if status == "Pending" then Outline else Default
  }

  /** The page state: the loaded requests, the three filter inputs and the filtered list shown. */
  class RequestsPage {
    var requests: seq<Request>
    var filteredRequests: seq<Request>
    var statusFilter: string
    var typeFilter: string
    var searchTerm: string

    constructor ()
      ensures requests == [] && filteredRequests == []
      ensures statusFilter == "all" && typeFilter == "all" && searchTerm == ""
    {
      requests := [];
      filteredRequests := [];
      statusFilter := "all";
      typeFilter := "all";
      searchTerm := "";
    }

    /**
     * `applyFilters`: the status, type and search filters are applied one after the other,
     * each only when active, and the result is exactly the requests matching all three.
     */
    method ApplyFilters()
      modifies this`filteredRequests
      ensures filteredRequests == Filtered(requests, statusFilter, typeFilter, searchTerm)
    {
      var status, kind, search := statusFilter, typeFilter, searchTerm;
      var byStatus := (x: Request) => StatusPasses(status, x);
      var byStatusAndType := (x: Request) => StatusPasses(status, x) && TypePasses(kind, x);
      var byAll := (x: Request) => Matches(status, kind, search, x);

      var result := requests;
      if status != "all" {
        result := Lists.Keep(result, (x: Request) => x.status == status);
        Lists.KeepSame(requests, (x: Request) => x.status == status, byStatus);
      } else {
        Lists.KeepAll(requests, byStatus);
      }
      assert result == Lists.Keep(requests, byStatus);

      if kind != "all" {
        var sameType := (x: Request) => x.kind == kind;
        Lists.KeepKeep(requests, byStatus, sameType, byStatusAndType);
        result := Lists.Keep(result, sameType);
      } else {
        Lists.KeepSame(requests, byStatus, byStatusAndType);
      }
      assert result == Lists.Keep(requests, byStatusAndType);

      if !IsBlank(search) {
        var term := Lower(search);
        var found := (x: Request) =>
          Contains(Lower(x.instituteName), term) || Contains(Lower(x.items), term) ||
          (x.description.Some? && Contains(Lower(x.description.value), term));
        Lists.KeepKeep(requests, byStatusAndType, found, byAll);
        result := Lists.Keep(result, found);
      } else {
        Lists.KeepSame(requests, byStatusAndType, byAll);
      }
      filteredRequests := result;
    }
  }
}
