/**
 * The in-memory donation ledger of the Flask service: the `requests_db` and `donations_db`
 * tables, request creation with its anomaly check, and donation processing, which credits a
 * quantity to the target request and marks it fulfilled once the requested quantity is reached.
 *
 * Calls to the language model, `uuid.uuid4()` and `datetime.now()` are parameters: the raw
 * reply text and its JSON decoding for the shop matcher, the verdict of the anomaly analysis,
 * the impact message, a fresh identifier and a timestamp.
 */
module Ledger {
  import opened Wrappers
  import opened Text
  import opened ShopMatching
  import Lists

  /** `"open"` or `"fulfilled"`. */
  datatype Status = Open | Fulfilled

  /** A row of `requests_db`. */
  datatype Request = Request(
    id: string,
    institutionId: string,
    item: string,
    quantity: int,
    estimatedCost: int,
    fulfilledQuantity: int,
    status: Status,
    date: string)

  /** A row of `institutions_db`. */
  datatype Institution = Institution(id: string, name: string, kind: string, beneficiaries: int, address: string)

  const Institutions: seq<Institution> := [Institution("inst1", "Hope Shelter", "orphanage", 25, "123 Main St")]

  /** A JSON value where the service expects a number: an integer, or a string to be converted. */
  datatype Scalar = IntValue(i: int) | StrValue(s: string)

  /**
   * `int(v)` (and `int(v) if isinstance(v, str) else v`): an integer is kept; a string
   * converts exactly when it is an optionally signed run of decimal digits between white
   * space, to its signed value; `None` where the conversion raises.
   */
  function ToInt(v: Scalar): (r: Option<int>)
    ensures v.IntValue? ==> r == Some(v.i)
    ensures v.StrValue? ==> (r.Some? <==> exists lead, sign, ds, trail :: IntegerText(v.s, lead, sign, ds, trail))
    ensures v.StrValue? ==>
              forall lead, sign, ds, trail :: IntegerText(v.s, lead, sign, ds, trail) ==> r == Some(SignedValue(sign, ds))
  {
    match v
    case IntValue(i) => Some(i)
    case StrValue(s) => ParseIntShape(s); ParseInt(s)
  }

  /** The body of `POST /api/requests`; an absent key is `None`. */
  datatype RequestPayload = RequestPayload(
    institutionId: Option<string>,
    item: Option<string>,
    quantity: Option<Scalar>,
    estimatedCost: Option<Scalar>)

  /** The body of `POST /api/donations`; an absent key is `None`. */
  datatype DonationPayload = DonationPayload(
    requestId: Option<string>,
    donorName: Option<string>,
    donationType: Option<string>,
    amount: Option<Scalar>,
    quantity: Option<Scalar>,
    shopId: Option<string>)

  /** A row of `donations_db`. */
  datatype Donation =
    | MoneyDonation(id: string, requestId: string, donorName: string, amount: int,
                    shopRecommendation: ShopMatch, impactMessage: string, date: string)
    | ItemDonation(id: string, requestId: string, donorName: string, quantity: int,
                   shopId: Option<string>, impactMessage: string, date: string)

  /** The error answers of the two handlers. */
  datatype ApiError =
    | MissingRequestFields
    | ConversionFailed                      // `int(...)` raised in `create_request`: unhandled, so HTTP 500
    | MissingFields(fields: seq<string>)
    | RequestNotFound(requestId: string)
    | InstitutionNotFound(institutionId: string)
    | MoneyNeedsAmount
    | ItemNeedsQuantity
    | MoneyDonationFailed                   // an exception inside the money branch's `try`
    | ItemDonationFailed                    // an exception inside the direct-item branch's `try`
    | InvalidDonationType(donationType: string)

  /** The HTTP status of an error answer. */
  function StatusCode(e: ApiError): (code: int)
    ensures code == 404 <==> e.RequestNotFound? || e.InstitutionNotFound?
    ensures code == 500 <==> e.ConversionFailed?
    ensures code in {400, 404, 500}
  {
    match e
    case RequestNotFound(_) => 404
    case InstitutionNotFound(_) => 404
    case ConversionFailed => 500
    case _ => 400
  }

  /** `next((inst for inst in institutions_db if inst["id"] == id), None)`. */
  function FindInstitution(id: string): (r: Option<Institution>)
    ensures r.Some? ==> r.value in Institutions && r.value.id == id
    ensures r.None? <==> forall k :: 0 <= k < |Institutions| ==> Institutions[k].id != id
  {
    if Institutions[0].id == id then Some(Institutions[0]) else None
  }

  /** `next((req for req in requests_db if req["id"] == id), None)`: the first match. */
  function FindRequest(requests: seq<Request>, id: string): (r: Option<nat>)
    ensures r.Some? ==> r.value < |requests| && requests[r.value].id == id
    ensures r.Some? ==> forall k :: 0 <= k < r.value ==> requests[k].id != id
    ensures r.None? ==> forall k :: 0 <= k < |requests| ==> requests[k].id != id
  {
    if requests == [] then None
    else if requests[0].id == id then Some(0)
    else match FindRequest(requests[1..], id)
      case None => None
      case Some(k) => Some(k + 1)
  }

  /** What the anomaly analysis answered (the parsed model reply); keys may be absent. */
  datatype Assessment = Assessment(riskScore: Option<int>, reasoning: Option<string>)

  /** The course `detect_request_anomalies` took: no analysis, or an analysis of the history shown to the model. */
  datatype AnomalyCheck = InstitutionUnknown | Analysed(history: seq<Request>, verdict: Assessment)

  /**
   * `detect_request_anomalies`: an unknown institution ends the check; otherwise the model is
   * shown the institution's past requests, exactly those rows of `requests` that carry its id,
   * in table order.
   */
  function DetectRequestAnomalies(requests: seq<Request>, institutionId: string, verdict: Assessment): (c: AnomalyCheck)
    ensures c.InstitutionUnknown? <==> FindInstitution(institutionId).None?
    ensures c.Analysed? ==> c.verdict == verdict
    ensures c.Analysed? ==> forall k :: 0 <= k < |c.history| ==> c.history[k] in requests && c.history[k].institutionId == institutionId
    ensures c.Analysed? ==> forall k :: 0 <= k < |requests| && requests[k].institutionId == institutionId ==> requests[k] in c.history
    ensures c.Analysed? ==> Lists.IsSubsequence(c.history, requests)
    ensures c.Analysed? ==> multiset(c.history) <= multiset(requests)
    ensures c.Analysed? ==> forall k :: 0 <= k < |requests| && requests[k].institutionId == institutionId ==>
              multiset(c.history)[requests[k]] == multiset(requests)[requests[k]]
  {
    if FindInstitution(institutionId).None? then InstitutionUnknown
    else
      var history := Lists.Keep(requests, (r: Request) => r.institutionId == institutionId);
      Lists.KeepIsSubsequence(requests, (r: Request) => r.institutionId == institutionId);
      Lists.KeepCounts(requests, (r: Request) => r.institutionId == institutionId);
      Analysed(history, verdict)
  }

  /** The `anomaly_check` dictionary returned to the client. */
  function AnomalyReply(c: AnomalyCheck): (a: Assessment)
    ensures c.InstitutionUnknown? ==> a.riskScore == Some(5)
    ensures c.Analysed? ==> a == c.verdict
  {
    match c
    case InstitutionUnknown => Assessment(Some(5), Some("Institution not found in database"))
    case Analysed(_, verdict) => verdict
  }

  /**
   * The fulfilment update: `fulfilled_quantity += q`, then the status becomes fulfilled once
   * the total reaches the requested quantity. The update never reopens a request, and a
   * request is left open only if it was open and its total is still short of the quantity.
   */
  function Credit(r: Request, q: int): (c: Request)
    ensures c.fulfilledQuantity == r.fulfilledQuantity + q
    ensures c.status == Open <==> r.status == Open && c.fulfilledQuantity < r.quantity
    ensures r.status == Fulfilled ==> c.status == Fulfilled
    ensures c.(fulfilledQuantity := r.fulfilledQuantity, status := r.status) == r
  {
    var total := r.fulfilledQuantity + q;
    r.(fulfilledQuantity := total, status := if total >= r.quantity then Fulfilled else r.status)
  }

  /** Two successive credits, the second non-negative, update a request as one credit of their sum. */
  lemma CreditsCombine(r: Request, q1: int, q2: int)
    requires q2 >= 0
    ensures Credit(Credit(r, q1), q2) == Credit(r, q1 + q2)
  {
  }

  /** A fulfilled request has reached its quantity. */
  predicate Covered(r: Request) {
    r.status == Fulfilled ==> r.fulfilledQuantity >= r.quantity
  }

  /** A non-negative credit keeps a covered request covered, and leaves it open only while short of its quantity. */
  lemma CreditKeepsCovered(r: Request, q: int)
    requires Covered(r) && q >= 0
    ensures Covered(Credit(r, q))
    ensures Credit(r, q).status == Open ==> Credit(r, q).fulfilledQuantity < r.quantity
  {
  }

  const RequestRequiredFields: seq<string> := ["institution_id", "item", "quantity", "estimated_cost"]
  const DonationRequiredFields: seq<string> := ["request_id", "donor_name", "donation_type"]

  /** `field in data` for the keys the handlers check. */
  predicate HasRequestField(data: RequestPayload, field: string) {
    match field
    case "institution_id" => data.institutionId.Some?
    case "item" => data.item.Some?
    case "quantity" => data.quantity.Some?
    case "estimated_cost" => data.estimatedCost.Some?
    case _ => false
  }

  predicate HasDonationField(data: DonationPayload, field: string) {
    match field
    case "request_id" => data.requestId.Some?
    case "donor_name" => data.donorName.Some?
    case "donation_type" => data.donationType.Some?
    case _ => false
  }

  /** `all(field in data for field in required_fields)`. */
  predicate HasRequestFields(data: RequestPayload)
    ensures HasRequestFields(data) <==>
      data.institutionId.Some? && data.item.Some? && data.quantity.Some? && data.estimatedCost.Some?
  {
    assert RequestRequiredFields[0] == "institution_id" && RequestRequiredFields[1] == "item"
        && RequestRequiredFields[2] == "quantity" && RequestRequiredFields[3] == "estimated_cost";
    forall k :: 0 <= k < |RequestRequiredFields| ==> HasRequestField(data, RequestRequiredFields[k])
  }

  /**
   * `[field for field in required_fields if field not in data]`: the absent required keys, in
   * the fixed order `request_id`, `donor_name`, `donation_type`.
   */
  function MissingDonationFields(data: DonationPayload): (missing: seq<string>)
    ensures Lists.IsSubsequence(missing, DonationRequiredFields)
    ensures forall k :: 0 <= k < |missing| ==> missing[k] in DonationRequiredFields && !HasDonationField(data, missing[k])
    ensures forall k :: 0 <= k < |DonationRequiredFields| && !HasDonationField(data, DonationRequiredFields[k]) ==>
              DonationRequiredFields[k] in missing
    ensures missing == [] <==> data.requestId.Some? && data.donorName.Some? && data.donationType.Some?
  {
    var absent := (f: string) => !HasDonationField(data, f);
    Lists.KeepIsSubsequence(DonationRequiredFields, absent);
    var missing := Lists.Keep(DonationRequiredFields, absent);
    assert DonationRequiredFields[0] == "request_id" && DonationRequiredFields[1] == "donor_name"
        && DonationRequiredFields[2] == "donation_type";
    missing
  }

  /** The answer of `POST /api/requests`. */
  datatype RequestResponse = RequestCreated(request: Request, anomalyCheck: AnomalyCheck) | RequestRejected(error: ApiError)

  /** The answer of `POST /api/donations`. */
  datatype DonationResponse = Donated(donation: Donation, updatedRequest: Request) | DonationRejected(error: ApiError)

  /** The two tables of the service, updated in place by the two POST handlers. */
  class Ledger {
    var requests: seq<Request>
    var donations: seq<Donation>

    constructor ()
      ensures requests == [] && donations == []
    {
      requests := [];
      donations := [];
    }

    /**
     * `create_request`. A payload lacking a required key is rejected (400) and a quantity or
     * cost that `int` cannot convert ends the handler with an error (500), both before
     * anything is stored. Otherwise the new request, open with nothing fulfilled, becomes the
     * last row, whether or not its institution is known; the anomaly check saw the table as it
     * was before the append.
     */
    method CreateRequest(data: RequestPayload, freshId: string, now: string, verdict: Assessment)
      returns (resp: RequestResponse)
      modifies this
      ensures donations == old(donations)
      ensures !HasRequestFields(data) ==> resp == RequestRejected(MissingRequestFields)
      ensures HasRequestFields(data) && (ToInt(data.quantity.value).None? || ToInt(data.estimatedCost.value).None?) ==>
                resp == RequestRejected(ConversionFailed)
      ensures resp.RequestCreated? <==>
                HasRequestFields(data) && ToInt(data.quantity.value).Some? && ToInt(data.estimatedCost.value).Some?
      ensures resp.RequestRejected? ==> requests == old(requests)
      ensures |requests| >= |old(requests)| && requests[..|old(requests)|] == old(requests)
      ensures resp.RequestCreated? ==>
                && HasRequestFields(data)
                && ToInt(data.quantity.value).Some? && ToInt(data.estimatedCost.value).Some?
                && requests == old(requests) + [resp.request]
                && resp.request == Request(freshId, data.institutionId.value, data.item.value,
                                           ToInt(data.quantity.value).value, ToInt(data.estimatedCost.value).value,
                                           0, Open, now)
                && resp.anomalyCheck == DetectRequestAnomalies(old(requests), data.institutionId.value, verdict)
    {
      if !HasRequestFields(data) {
        return RequestRejected(MissingRequestFields);
      }
      var quantity := ToInt(data.quantity.value);
      var cost := ToInt(data.estimatedCost.value);
      if quantity.None? || cost.None? {
        return RequestRejected(ConversionFailed);
      }
      var newRequest := Request(freshId, data.institutionId.value, data.item.value, quantity.value, cost.value, 0, Open, now);
      var check := DetectRequestAnomalies(requests, data.institutionId.value, verdict);
      requests := requests + [newRequest];
      resp := RequestCreated(newRequest, check);
    }

    /**
     * `create_donation`. The checks run in order, each rejecting with both tables unchanged:
     * missing keys (listed in order), unknown request (404), unknown institution of that
     * request (404), then per donation type the missing `amount` or `quantity` key, a failed
     * conversion or shop recommendation without `quantity_possible` (400), and an unknown
     * donation type (400). An accepted donation credits its quantity to the first request with
     * the given id, leaves every other request as it was, and appends exactly one donation.
     */
    method CreateDonation(data: DonationPayload, freshId: string, now: string,
                          reply: string, decoded: JsonDecode, impactMessage: string)
      returns (resp: DonationResponse)
      modifies this
      ensures MissingDonationFields(data) != [] ==>
                resp == DonationRejected(MissingFields(MissingDonationFields(data)))
      ensures MissingDonationFields(data) == [] && FindRequest(old(requests), data.requestId.value).None? ==>
                resp == DonationRejected(RequestNotFound(data.requestId.value))
      ensures MissingDonationFields(data) == [] && FindRequest(old(requests), data.requestId.value).Some? ==>
                var target := old(requests)[FindRequest(old(requests), data.requestId.value).value];
                && (FindInstitution(target.institutionId).None? ==>
                      resp == DonationRejected(InstitutionNotFound(target.institutionId)))
                && (FindInstitution(target.institutionId).Some? ==>
                      && (data.donationType.value == "money" && data.amount.None? ==> resp == DonationRejected(MoneyNeedsAmount))
                      && (data.donationType.value == "money" && data.amount.Some? ==>
                            var amount := ToInt(data.amount.value);
                            && (amount.None? ==> resp == DonationRejected(MoneyDonationFailed))
                            && (amount.Some? ==>
                                  var m := MatchShop(target.item, amount.value, reply, decoded);
                                  && (m.quantityPossible.None? ==> resp == DonationRejected(MoneyDonationFailed))
                                  && (m.quantityPossible.Some? ==> resp.Donated?)))
                      && (data.donationType.value == "direct_item" && data.quantity.None? ==> resp == DonationRejected(ItemNeedsQuantity))
                      && (data.donationType.value == "direct_item" && data.quantity.Some? ==>
                            && (ToInt(data.quantity.value).None? ==> resp == DonationRejected(ItemDonationFailed))
                            && (ToInt(data.quantity.value).Some? ==> resp.Donated?))
                      && (data.donationType.value != "money" && data.donationType.value != "direct_item" ==>
                            resp == DonationRejected(InvalidDonationType(data.donationType.value))))
      ensures resp.DonationRejected? ==> requests == old(requests) && donations == old(donations)
      ensures resp.Donated? ==>
                && MissingDonationFields(data) == []
                && FindRequest(old(requests), data.requestId.value).Some?
                && var i := FindRequest(old(requests), data.requestId.value).value;
                && FindInstitution(old(requests)[i].institutionId).Some?
                && requests == old(requests)[i := resp.updatedRequest]
                && donations == old(donations) + [resp.donation]
      ensures resp.Donated? && data.donationType.value == "direct_item" ==>
                && data.quantity.Some? && ToInt(data.quantity.value).Some?
                && var target := old(requests)[FindRequest(old(requests), data.requestId.value).value];
                && resp.donation == ItemDonation(freshId, data.requestId.value, data.donorName.value,
                                                 ToInt(data.quantity.value).value, data.shopId, impactMessage, now)
                && resp.updatedRequest == Credit(target, ToInt(data.quantity.value).value)
      ensures resp.Donated? && data.donationType.value == "money" ==>
                && data.amount.Some? && ToInt(data.amount.value).Some?
                && var target := old(requests)[FindRequest(old(requests), data.requestId.value).value];
                && var m := MatchShop(target.item, ToInt(data.amount.value).value, reply, decoded);
                && m.quantityPossible.Some?
                && resp.donation == MoneyDonation(freshId, data.requestId.value, data.donorName.value,
                                                  ToInt(data.amount.value).value, m, impactMessage, now)
                && resp.updatedRequest == Credit(target, m.quantityPossible.value)
      ensures resp.Donated? ==> data.donationType.value == "money" || data.donationType.value == "direct_item"
      ensures |requests| == |old(requests)|
      ensures forall j :: 0 <= j < |requests| && old(requests)[j].status == Fulfilled ==> requests[j].status == Fulfilled
    {
      var missing := MissingDonationFields(data);
      if missing != [] {
        return DonationRejected(MissingFields(missing));
      }
      var requestId := data.requestId.value;
      var found := FindRequest(requests, requestId);
      if found.None? {
        return DonationRejected(RequestNotFound(requestId));
      }
      var i := found.value;
      var target := requests[i];
      if FindInstitution(target.institutionId).None? {
        return DonationRejected(InstitutionNotFound(target.institutionId));
      }
      var donationType := data.donationType.value;
      if donationType == "money" {
        if data.amount.None? {
          return DonationRejected(MoneyNeedsAmount);
        }
        var amount := ToInt(data.amount.value);
        if amount.None? {
          return DonationRejected(MoneyDonationFailed);
        }
        var shopMatch := FindOptimalShop(target.item, amount.value, reply, decoded);
        if shopMatch.quantityPossible.None? {
          return DonationRejected(MoneyDonationFailed);  // `shop_match['quantity_possible']` raises KeyError
        }
        var donation := MoneyDonation(freshId, requestId, data.donorName.value, amount.value, shopMatch, impactMessage, now);
        var updated := Credit(target, shopMatch.quantityPossible.value);
        requests := requests[i := updated];
        donations := donations + [donation];
        resp := Donated(donation, updated);
      } else if donationType == "direct_item" {
        if data.quantity.None? {
          return DonationRejected(ItemNeedsQuantity);
        }
        var quantity := ToInt(data.quantity.value);
        if quantity.None? {
          return DonationRejected(ItemDonationFailed);
        }
        var donation := ItemDonation(freshId, requestId, data.donorName.value, quantity.value, data.shopId, impactMessage, now);
        var updated := Credit(target, quantity.value);
        requests := requests[i := updated];
        donations := donations + [donation];
        resp := Donated(donation, updated);
      } else {
        resp := DonationRejected(InvalidDonationType(donationType));
      }
    }
  }
}
