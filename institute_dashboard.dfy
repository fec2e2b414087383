/**
 * The institute dashboard: the new-request form (field updates, submit reset, show/hide),
 * the active and urgent request counts, and the urgency and status badges.
 */
module InstituteDashboard {
  import opened Badges
  import Lists

  datatype Urgency = Low | Medium | High

  /** A pending request of the institute. */
  datatype PendingRequest = PendingRequest(
    id: int, kind: string, items: string, requestedDate: string, amount: int, status: string, urgency: Urgency)

  const PendingRequests: seq<PendingRequest> := [
    PendingRequest(1, "Food", "Rice (10kg), Dal (5kg), Vegetables, Cooking Oil", "2023-06-15", 8500, "Pending", High),
    PendingRequest(2, "Medicine", "First Aid Supplies, Common Medications", "2023-06-10", 12000, "In Progress", Medium),
    PendingRequest(3, "Education", "Notebooks (50), Pencils, Erasers, Sharpeners", "2023-06-05", 6000, "Pending", Low)
  ]

  /** The form as the component holds it: field name to text. */
  type RequestForm = map<string, string>

  /** The empty form: every field blank, urgency `Medium`. */
  const EmptyForm: RequestForm := map["type" := "", "items" := "", "description" := "", "amount" := "", "urgency" := "Medium"]

  /** The form is back to its initial contents. */
  predicate IsReset(form: RequestForm) {
    form.Keys == {"type", "items", "description", "amount", "urgency"} &&
    form["type"] == "" && form["items"] == "" && form["description"] == "" && form["amount"] == "" &&
    form["urgency"] == "Medium"
  }

  /** The active count: the number of pending requests. */
  function ActiveCount(requests: seq<PendingRequest>): nat {
    |requests|
  }

  predicate IsUrgent(r: PendingRequest) {
    r.urgency == High
  }

  /** The urgent count: the number of pending requests of urgency `High`, never more than the active count. */
  function UrgentCount(requests: seq<PendingRequest>): (n: nat)
    ensures n <= ActiveCount(requests)
    ensures n == |Lists.Keep(requests, IsUrgent)|
    ensures n == 0 <==> forall k :: 0 <= k < |requests| ==> requests[k].urgency != High
  {
    var urgent := Lists.Keep(requests, IsUrgent);
    assert urgent != [] ==> urgent[0] in requests && urgent[0].urgency == High;
    |urgent|
  }

  /** The dashboard shows three active requests, one of them urgent. */
  lemma DashboardCounts()
    ensures ActiveCount(PendingRequests) == 3
    ensures UrgentCount(PendingRequests) == 1
  {
    assert PendingRequests[1..][1..][1..] == [];
  }

  /** The urgency badge: distinct variants for the three urgencies. */
  function UrgencyBadge(u: Urgency): (v: BadgeVariant)
    ensures v == Destructive <==> u == High
    ensures v == Default <==> u == Medium
    ensures v == Outline <==> u == Low
  {
    match u
    case High => Destructive
    case Medium => Default
    case Low => Outline
  }

  /** The dashboard's form state. */
  class InstituteDashboard {
    var showRequestForm: bool
    var requestForm: RequestForm

    constructor ()
      ensures !showRequestForm && IsReset(requestForm)
    {
      showRequestForm := false;
      requestForm := EmptyForm;
    }

    /**
     * `handleInputChange` and `handleSelectChange`: the named field takes the new value and
     * every other field keeps its value.
     */
    method UpdateField(name: string, value: string)
      modifies this`requestForm
      ensures name in requestForm && requestForm[name] == value
      ensures requestForm.Keys == old(requestForm).Keys + {name}
      ensures forall f :: f in old(requestForm) && f != name ==> requestForm[f] == old(requestForm)[f]
    {
      requestForm := requestForm[name := value];
    }

    /** `handleSubmitRequest`: the form is hidden and reset to its initial contents. */
    method HandleSubmitRequest()
      modifies this
      ensures !showRequestForm && IsReset(requestForm)
    {
      showRequestForm := false;
      requestForm := EmptyForm;
    }

    /** The "Create New Request" button flips the form's visibility. */
    method ToggleRequestForm()
      modifies this`showRequestForm
      ensures showRequestForm == !old(showRequestForm)
    {
      showRequestForm := !showRequestForm;
    }

    /** The Cancel button hides the form and leaves its contents. */
    method CancelRequestForm()
      modifies this`showRequestForm
      ensures !showRequestForm
    {
      showRequestForm := false;
    }
  }
}
