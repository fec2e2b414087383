/**
 * The donations history page: the total of money donated, and the per-row institute, type,
 * details and amount cells with their fallbacks.
 */
module DonationsPage {
  import opened Wrappers
  import opened Badges
  import Lists

  datatype DonationKind = Money | Item

  /** The request a donation went to, as joined into the row (`request.institute` may be absent). */
  datatype RequestInfo = RequestInfo(kind: string, items: string, instituteName: Option<string>)

  /** A row of the page; `items` and `request` may be `null`. */
  datatype Donation = Donation(
    id: string,
    amount: int,
    donationType: DonationKind,
    items: Option<string>,
    status: string,
    createdAt: string,
    request: Option<RequestInfo>)

  /** The amount a donation contributes to the total: its amount when it is money, else 0. */
  function Contribution(d: Donation): int {
    if d.donationType == Money then d.amount else 0
  }

  /** The `reduce` over the loaded donations, folding from the left, starting at 0. */
  function TotalFrom(sum: int, donations: seq<Donation>): int
    decreases |donations|
  {
    if donations == [] then sum else TotalFrom(sum + Contribution(donations[0]), donations[1..])
  }

  function TotalDonated(donations: seq<Donation>): int {
    TotalFrom(0, donations)
  }

  predicate IsMoney(d: Donation) {
    d.donationType == Money
  }

  function AmountOf(d: Donation): int {
    d.amount
  }

  /** The fold adds the money amounts to its starting value. */
  lemma {:induction false} TotalFromIsSumOfMoney(sum: int, donations: seq<Donation>)
    ensures TotalFrom(sum, donations) == sum + Lists.SumWhere(donations, IsMoney, AmountOf)
    decreases |donations|
  {
    if donations != [] {
      TotalFromIsSumOfMoney(sum + Contribution(donations[0]), donations[1..]);
    }
  }

  /** The total donated is the sum of the amounts of the money donations. */
  lemma TotalIsSumOfMoney(donations: seq<Donation>)
    ensures TotalDonated(donations) == Lists.Sum(Lists.Map(Lists.Keep(donations, IsMoney), AmountOf))
  {
    TotalFromIsSumOfMoney(0, donations);
    Lists.SumWhereIsSumOfKept(donations, IsMoney, AmountOf);
  }

  /** An item donation leaves the total unchanged wherever it is inserted, whatever its amount. */
  lemma ItemDonationAddsNothing(before: seq<Donation>, d: Donation, after: seq<Donation>)
    requires d.donationType == Item
    ensures TotalDonated(before + [d] + after) == TotalDonated(before + after)
  {
    TotalIsSumOfMoney(before + [d] + after);
    TotalIsSumOfMoney(before + after);
    Lists.KeepAppend(before + [d], after, IsMoney);
    Lists.KeepAppend(before, [d], IsMoney);
    Lists.KeepAppend(before, after, IsMoney);
    assert Lists.Keep([d], IsMoney) == [];
    assert Lists.Keep(before, IsMoney) + [] == Lists.Keep(before, IsMoney);
  }

  /** The institute cell: the joined institute name, or "N/A" when it is absent or empty. */
  function InstituteCell(d: Donation): (cell: string)
    ensures cell != ""
    ensures d.request.Some? && d.request.value.instituteName.Some? && d.request.value.instituteName.value != "" ==>
              cell == d.request.value.instituteName.value
    ensures d.request.None? ==> cell == "N/A"
    ensures !(d.request.Some? && d.request.value.instituteName.Some? && d.request.value.instituteName.value != "") ==>
              cell == "N/A"
  {
    match d.request
    case Some(RequestInfo(_, _, Some(name))) => if name != "" then name else "N/A"
    case _ => "N/A"
  }

  /** The type badge: a default "Money" badge or an outlined "Items" badge. */
  function TypeBadge(d: Donation): (badge: (BadgeVariant, string))
    ensures badge.0 == Default <==> d.donationType == Money
    ensures badge.1 == (if d.donationType == Money then "Money" else "Items")
  {
    if d.donationType == Money then (Default, "Money") else (Outline, "Items")
  }

  /**
   * The details cell: for money, the request type or "General"; for items, the donated items
   * or "Various items". The cell is never empty.
   */
  function DetailsCell(d: Donation): (cell: string)
    ensures cell != ""
    ensures d.donationType == Money ==>
              cell == (if d.request.Some? && d.request.value.kind != "" then d.request.value.kind else "General")
    ensures d.donationType == Item ==>
              cell == (if d.items.Some? && d.items.value != "" then d.items.value else "Various items")
  {
    match d.donationType
    case Money =>
      (match d.request
       case Some(info) => if info.kind != "" then info.kind else "General"
       case None => "General")
    case Item =>
      (match d.items
       case Some(items) => if items != "" then items else "Various items"
       case None => "Various items")
  }

  /** The amount cell: the amount of a money donation, a dash for an item donation. */
  datatype AmountCell = Rupees(amount: int) | Dash

  function AmountCellOf(d: Donation): (cell: AmountCell)
    ensures cell.Rupees? <==> d.donationType == Money
    ensures cell.Rupees? ==> cell.amount == d.amount
  {
    if d.donationType == Money then Rupees(d.amount) else Dash
  }

  /** The donations the simulated load delivers. */
  const MockDonations: seq<Donation> := [
    Donation("1", 5000, Money, None, "Completed", "2023-06-01T10:30:00Z",
             Some(RequestInfo("Food", "Rice, Dal, Vegetables", Some("Sunshine Orphanage")))),
    Donation("2", 8000, Money, None, "Completed", "2023-05-15T14:20:00Z",
             Some(RequestInfo("Medicine", "First Aid Supplies", Some("Golden Age Home")))),
    Donation("3", 0, Item, Some("Books, Notebooks, Pens (50 sets)"), "Completed", "2023-05-10T09:15:00Z",
             Some(RequestInfo("Education", "School Supplies", Some("Hope Children Center"))))
  ]

  /** The page shows a total of 13000 for the loaded donations. */
  lemma MockTotal()
    ensures TotalDonated(MockDonations) == 13000
  {
  }
}
