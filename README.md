# Donatio / AidConnect — a verified model of the ledger and the front-end decision logic

The repository has two parts. The first is a Flask service that keeps an in-memory donation
ledger. Institutions post supply requests (`requests_db`), donors post donations
(`donations_db`), and every donation credits a quantity to its request. A request flips from
`open` to `fulfilled` once the credited quantity reaches the requested quantity. For money
donations, a language model recommends a shop and the number of kilograms the budget buys.
The service reads the reply as JSON, or line by line, or falls back to arithmetic on the
first shop's prices.

The second part is the AidConnect React front end. This model covers its decision logic and
leaves out the rendering:

- the search and filter rules of the requests, institutes and suppliers pages;
- the money total on the donations page;
- the ordered checks of the donation form;
- the dashboard role switch;
- the supplier order actions;
- the institute request form;
- the avatar initials and navigation highlight of the dashboard frame.

One Dafny module corresponds to one source file, plus shared helpers:

- `ledger.dfy` (`Ledger`) and `shop_matching.dfy` (`ShopMatching`) model `Donatio_testing/app.py`.
- `Ledger.Ledger` is a class whose `requests` and `donations` fields are the two tables.
  `CreateRequest` and `CreateDonation` update them in place.
- `ShopMatching.ManualParse` is the line-by-line loop. It is proved equal to the
  loop-free specification `ParsedLines`.
- `requests_page.dfy`, `institutes_page.dfy`, `suppliers_page.dfy`, `donations_page.dfy`,
  `make_donation.dfy`, `institute_dashboard.dfy`, `supplier_dashboard.dfy`, `dashboard.dfy` and
  `dashboard_layout.dfy` model the page or component of the same name.
- Component state is a class whose methods are the event handlers. A `setTimeout` completion
  is a separate method or event.
- `text.dfy` (`Text`) holds the string operations the source borrows from Python and
  JavaScript. `lists.dfy` (`Lists`) holds `filter`, `map`, sums and `Set` de-duplication.
  `wrappers.dfy` holds `Option`, and `badges.dfy` holds the badge variants.

Inputs that the source obtains from outside become parameters:

- `reply`: the text the language model returned for the shop prompt.
- `decoded`: what `json.loads` and the `int` casts make of the reply's braced span.
- `verdict`: the anomaly assessment the model returned.
- `impactMessage`: the generated thank-you text.
- `freshId`: the value of `uuid.uuid4()`.
- `now`: the value of `datetime.now().isoformat()`.
- `loggedIn`: whether the auth context has a user.
- `loaded`: the list a simulated fetch delivers.

## Model

| member | source | states |
|---|---|---|
| `Ledger.Ledger.CreateRequest` | Donatio_testing/app.py:256-290 | A payload missing any of the four required keys is rejected with 400, and a quantity or cost that `int` cannot convert ends with 500; in both cases the tables are unchanged. The request is created exactly when all four keys are present and both values convert. Then exactly one request is appended as the last row, even for an unknown institution. It carries the converted integers, `fulfilled_quantity` 0 and status open. The anomaly check saw the table as it was before the append. Earlier rows are untouched. |
| `Ledger.Ledger.CreateDonation` | Donatio_testing/app.py:292-441 | The checks run in order, and each rejection leaves both tables unchanged: missing keys are reported in the order `request_id`, `donor_name`, `donation_type`; then an unknown request (404); an unknown institution (404); money without `amount`; direct_item without `quantity`; any other type. Past those checks, money whose `amount` does not convert, or whose match has no `quantity_possible`, fails with the money error; direct_item whose `quantity` does not convert fails with the item error; every other donation is accepted. An accepted donation replaces only the first request with that id, by `Credit` of the donation's quantity, and appends exactly one donation. For direct_item that quantity is the converted `quantity`. For money it is the matcher's `quantity_possible`. No request that was fulfilled becomes open again. |
| `Ledger.Credit` | Donatio_testing/app.py:369-371 | Adds the quantity to `fulfilled_quantity`. The result is open exactly when the request was open and the new total is still below `quantity`. A fulfilled request never reopens, and every other field is kept. |
| `Ledger.ToInt` | Donatio_testing/app.py:272-273 | `int(x)` on a JSON value: an integer is itself (so the direct_item quantity, converted only when it is a string at line 397, passes through unchanged); a string (within CPython's digit limit, see Left out) converts exactly when it is white space, an optional sign, digits and white space, and then to the signed value of its digits. |
| `Ledger.CreditsCombine` | Donatio_testing/app.py:410-412 | Two successive credits, the second non-negative, equal one credit of their sum. |
| `Ledger.CreditKeepsCovered` | Donatio_testing/app.py:410-412 | A non-negative credit keeps the property "fulfilled implies the total reached the quantity". |
| `Ledger.FindRequest` | Donatio_testing/app.py:310 | `next(...)` over the requests: the first index with the id, or none when no row has it. |
| `Ledger.FindInstitution` | Donatio_testing/app.py:168 | The institution with the id if `institutions_db` has one, else none. |
| `Ledger.DetectRequestAnomalies` | Donatio_testing/app.py:165-173 | An unknown institution ends the check. Otherwise the history passed on is exactly the rows with the same `institution_id`, as an order-preserving sub-list of the table in which each such row occurs as often as in the table, and the verdict is the model's. |
| `Ledger.AnomalyReply` | Donatio_testing/app.py:169-170 | An unknown institution yields risk score 5; otherwise the reply is the model's verdict. |
| `Ledger.MissingDonationFields` | Donatio_testing/app.py:301-302 | The absent required keys, each listed iff absent, as a sub-list of `request_id`, `donor_name`, `donation_type` in that order. The list is empty iff all three are present. |
| `Ledger.HasRequestFields` | Donatio_testing/app.py:262-263 | `all(field in data ...)` holds iff all four keys are present. |
| `Ledger.StatusCode` | Donatio_testing/app.py:304-321 | The unknown request and unknown institution answers are 404. A failed conversion in `create_request` is 500. Every other rejection is 400. |
| `ShopMatching.FallbackDivisor` | Donatio_testing/app.py:141 | The divisor is positive. It is 1 when the first shop does not sell the item. |
| `ShopMatching.Fallback` | Donatio_testing/app.py:138-143 | The fallback names the first shop, "Fresh Mart", with its price for the item or 0, and has every key. Its quantity q satisfies q·p ≤ budget < (q+1)·p for the first shop's price p (1 when the shop lacks the item), so it is the floor division `budget // p`. |
| `ShopMatching.FallbackForUnknownItem` | Donatio_testing/app.py:140-141 | For an item the first shop lacks, the fallback has price 0 and quantity equal to the budget. |
| `ShopMatching.BracedSpanAfterFirstBrace` | Donatio_testing/app.py:106-107 | The search for `({.*})` succeeds exactly when some `}` follows the first `{` of the reply. |
| `ShopMatching.ClassifyTakesFirstKey` | Donatio_testing/app.py:123-131 | A line takes the first branch, in the chain's order, whose key its lowercased text contains, and no branch when it contains no key. |
| `ShopMatching.Clean` | Donatio_testing/app.py:124 | `strip().strip('"')` returns a slice of the value that neither starts nor ends with a quote, with only Python white space and quotes cut on either side. |
| `ShopMatching.AfterColon` | Donatio_testing/app.py:124 | `split(":", 1)[1]` exists exactly when the line has a colon. |
| `ShopMatching.NumberValue` | Donatio_testing/app.py:126-127 | A numeric key's value, built from the digits after the first colon, is never negative. It is absent when `int('')` would raise. |
| `ShopMatching.LastLineOf` | Donatio_testing/app.py:122-132 | The last line that takes a given branch of the `if`/`elif` chain, or none if no line takes it. |
| `ShopMatching.ParsedLines` | Donatio_testing/app.py:120-133 | The line-by-line reading fails exactly when some line's extraction raises. Otherwise each key holds the value of the last line taking its branch. Price and quantity are non-negative. |
| `ShopMatching.LaterQuantityLineOverwrites` | Donatio_testing/app.py:128-130 | One more `quantity_possible` line replaces the quantity and leaves the other keys as they were. |
| `ShopMatching.ReadLine` | Donatio_testing/app.py:122-132 | One pass of the loop body raises exactly when the line's extraction fails; otherwise the key of the branch the line takes receives the line's value and every other key is kept. |
| `ShopMatching.OneMoreLine` | Donatio_testing/app.py:122-132 | One pass of the loop body raises exactly when the line fails, and otherwise extends the reading to one more line. |
| `ShopMatching.ManualParse` | Donatio_testing/app.py:120-133 | The loop that fills `result` yields exactly `ParsedLines`. |
| `ShopMatching.MatchShop` | Donatio_testing/app.py:103-143 | Three cases decide the result. A braced span that decodes gives the decoded JSON. No span and no raising line gives the line-by-line reading (`ParsedLines`). A braced span that fails to decode, or no span with a raising line, gives the fallback. A missing `quantity_possible` can come only from decoded JSON without that key, or from a reply with no quantity line. |
| `ShopMatching.FindOptimalShop` | Donatio_testing/app.py:73-143 | The matcher, with the loop for the line-by-line case, equals `MatchShop`. |
| `Text.ParseIntAccepts` | Donatio_testing/app.py:272-273 | `int` accepts (within CPython's digit limit, see Left out) white space, an optional sign, one or more decimal digits and white space, and yields the signed decimal value of the digits. |
| `Text.ParseInt` | Donatio_testing/app.py:272-273 | `int(s)` succeeds only on text that is not empty once the white space `int` skips is stripped. |
| `Text.ParseIntShape` | Donatio_testing/app.py:272-273 | Within CPython's digit limit (see Left out), `int(s)` succeeds iff the text is white space, an optional sign, one or more digits and white space; every such reading gives the same signed value. |
| `Text.Split` | Donatio_testing/app.py:120 | `split` on one character: at least one piece, no piece contains the separator, and joining the pieces gives back the input. |
| `Text.ContainsIffOccurs` | Donatio_AidConnect/aidconnect-bridge-main/src/pages/RequestsPage.tsx:62 | `includes` holds iff the term occurs at some position. |
| `Text.BlankIffAllSpace` | Donatio_AidConnect/aidconnect-bridge-main/src/pages/RequestsPage.tsx:59 | `trim() === ''` holds iff every character is JavaScript white space. |
| `Lists.Keep` | Donatio_AidConnect/aidconnect-bridge-main/src/pages/RequestsPage.tsx:50 | `filter` keeps exactly the elements satisfying the condition. |
| `Lists.KeepCounts` | Donatio_AidConnect/aidconnect-bridge-main/src/pages/RequestsPage.tsx:50 | A `filter` result holds no element more often than its input, and every element satisfying the condition exactly as often. |
| `Lists.KeepIsSubsequence` | Donatio_AidConnect/aidconnect-bridge-main/src/pages/InstitutesPage.tsx:78 | A `filter` result is an order-preserving sub-list of its input. |
| `Lists.KeepKeep` | Donatio_AidConnect/aidconnect-bridge-main/src/pages/RequestsPage.tsx:46-66 | Two successive filters equal one filter on the conjunction of their conditions. |
| `Lists.FirstOccurrencesSpec` | Donatio_AidConnect/aidconnect-bridge-main/src/pages/RequestsPage.tsx:95 | De-duplication keeps every value, adds none, and repeats none. |
| `Lists.InsertAllFirstOccurrences` | Donatio_AidConnect/aidconnect-bridge-main/src/pages/RequestsPage.tsx:95 | Inserting values into a JavaScript `Set` one by one lists them in first-occurrence order. |
| `RequestsPage.Filtered` | Donatio_AidConnect/aidconnect-bridge-main/src/pages/RequestsPage.tsx:45-68 | The filtered list is an order-preserving sub-list holding exactly the requests that pass the status, type and search filters, each as often as in the loaded list. |
| `RequestsPage.Matches` | Donatio_AidConnect/aidconnect-bridge-main/src/pages/RequestsPage.tsx:49-66 | The conjunction of the three filters `applyFilters` would apply: the status and type filters pass at 'all' or on an exact match, the search passes when blank or when name, items or description contains the lowercased term. |
| `RequestsPage.RequestsPage.ApplyFilters` | Donatio_AidConnect/aidconnect-bridge-main/src/pages/RequestsPage.tsx:45-69 | The three successive, conditionally applied filters store exactly `Filtered`. |
| `RequestsPage.NoActiveFilterKeepsAll` | Donatio_AidConnect/aidconnect-bridge-main/src/pages/RequestsPage.tsx:49-59 | Status and type at 'all' and a blank search remove nothing. |
| `RequestsPage.StatusFilterIsExact` | Donatio_AidConnect/aidconnect-bridge-main/src/pages/RequestsPage.tsx:49-51 | A status filter other than 'all' keeps only requests with exactly that status. |
| `RequestsPage.UniqueTypes` | Donatio_AidConnect/aidconnect-bridge-main/src/pages/RequestsPage.tsx:94-97 | Each request type is listed exactly once, in first-occurrence order, and only types that occur are listed. |
| `RequestsPage.StatusBadge` | Donatio_AidConnect/aidconnect-bridge-main/src/pages/RequestsPage.tsx:222 | The badge is outlined iff the status is 'Pending'. |
| `RequestsPage.ShowDonate` | Donatio_AidConnect/aidconnect-bridge-main/src/pages/RequestsPage.tsx:225 | The Donate link is shown iff the user is a donor and the request is not 'Fulfilled'. |
| `InstitutesPage.SearchInstitutes` | Donatio_AidConnect/aidconnect-bridge-main/src/pages/InstitutesPage.tsx:74-85 | A blank term gives the full list. Otherwise the result is an order-preserving sub-list of exactly the institutes whose lowercased name, address or description contains the lowercased term, each kept as often as it is listed. |
| `InstitutesPage.InstitutesPage.StartLoad` | Donatio_AidConnect/aidconnect-bridge-main/src/pages/InstitutesPage.tsx:63-65 | The loading effect sets `isLoading` and changes nothing else. |
| `InstitutesPage.ShowVerifiedBadge` | Donatio_AidConnect/aidconnect-bridge-main/src/pages/InstitutesPage.tsx:131 | An institute card carries the Verified badge iff the institute is verified. |
| `InstitutesPage.VerifiedBadgesAfterSearch` | Donatio_AidConnect/aidconnect-bridge-main/src/pages/InstitutesPage.tsx:74-85 | After a search the badged cards are exactly the verified institutes that the search keeps, in list order. |
| `InstitutesPage.InstitutesPage.FinishLoad` | Donatio_AidConnect/aidconnect-bridge-main/src/pages/InstitutesPage.tsx:67-71 | Both lists are set to the loaded list and loading ends. With a blank search the two lists are equal. |
| `InstitutesPage.InstitutesPage.SetSearchTerm` | Donatio_AidConnect/aidconnect-bridge-main/src/pages/InstitutesPage.tsx:74-85 | After the effect, the shown list is the search result for the new term. |
| `InstitutesPage.MockVerifiedBadges` | Donatio_AidConnect/aidconnect-bridge-main/src/pages/InstitutesPage.tsx:131 | The badge follows `verified`: three of the four listed institutes show it. |
| `SuppliersPage.SomeServiceMatches` | Donatio_AidConnect/aidconnect-bridge-main/src/pages/SuppliersPage.tsx:76 | `services.some(...)` holds iff some service, lowercased, contains the term. |
| `SuppliersPage.SearchSuppliers` | Donatio_AidConnect/aidconnect-bridge-main/src/pages/SuppliersPage.tsx:69-80 | A blank term gives the full list. Otherwise the result is an order-preserving sub-list of exactly the suppliers matching on name, address or any service, each kept as often as it is listed. |
| `SuppliersPage.SuppliersPage.StartLoad` | Donatio_AidConnect/aidconnect-bridge-main/src/pages/SuppliersPage.tsx:58-60 | The loading effect sets `isLoading` and changes nothing else. |
| `SuppliersPage.ServiceMatchSuffices` | Donatio_AidConnect/aidconnect-bridge-main/src/pages/SuppliersPage.tsx:76 | A supplier whose only match is a service is still shown. |
| `SuppliersPage.SuppliersPage.FinishLoad` | Donatio_AidConnect/aidconnect-bridge-main/src/pages/SuppliersPage.tsx:62-66 | Both lists are set to the loaded list and loading ends. With a blank search the two lists are equal. |
| `SuppliersPage.SuppliersPage.SetSearchTerm` | Donatio_AidConnect/aidconnect-bridge-main/src/pages/SuppliersPage.tsx:69-80 | After the effect, the shown list is the search result for the new term. |
| `DonationsPage.TotalIsSumOfMoney` | Donatio_AidConnect/aidconnect-bridge-main/src/pages/DonationsPage.tsx:92-94 | The `reduce` total equals the sum of `amount` over the money donations. |
| `DonationsPage.TotalDonated` | Donatio_AidConnect/aidconnect-bridge-main/src/pages/DonationsPage.tsx:92-94 | The `reduce` that starts at 0 and adds `amount` for money donations and 0 otherwise. |
| `DonationsPage.TotalFromIsSumOfMoney` | Donatio_AidConnect/aidconnect-bridge-main/src/pages/DonationsPage.tsx:92-93 | The fold from any starting sum adds exactly the money amounts. |
| `DonationsPage.ItemDonationAddsNothing` | Donatio_AidConnect/aidconnect-bridge-main/src/pages/DonationsPage.tsx:93 | An item donation, whatever its amount, never changes the total. |
| `DonationsPage.MockTotal` | Donatio_AidConnect/aidconnect-bridge-main/src/pages/DonationsPage.tsx:39-96 | The three loaded donations total 13000. |
| `DonationsPage.InstituteCell` | Donatio_AidConnect/aidconnect-bridge-main/src/pages/DonationsPage.tsx:169 | The institute name when the request carries a non-empty one; 'N/A' in every other case (request, institute or name absent, or the name empty). The cell is never empty. |
| `DonationsPage.TypeBadge` | Donatio_AidConnect/aidconnect-bridge-main/src/pages/DonationsPage.tsx:172-173 | Money gets a default 'Money' badge; items get an outlined 'Items' badge. |
| `DonationsPage.DetailsCell` | Donatio_AidConnect/aidconnect-bridge-main/src/pages/DonationsPage.tsx:177-179 | Money shows the request type or 'General'. Items show the items or 'Various items'. The cell is never empty. |
| `DonationsPage.AmountCellOf` | Donatio_AidConnect/aidconnect-bridge-main/src/pages/DonationsPage.tsx:182-184 | The amount is shown iff the donation is money; otherwise a dash. |
| `MakeDonation.CheckDonation` | Donatio_AidConnect/aidconnect-bridge-main/src/pages/MakeDonation.tsx:58-77 | The first failing check decides the outcome, in the order no user, no request, money with an empty or non-numeric amount, items empty. Acceptance holds iff every check passes. |
| `MakeDonation.OnlyChosenInputMatters` | Donatio_AidConnect/aidconnect-bridge-main/src/pages/MakeDonation.tsx:69-77 | Money ignores the items text and items ignore the amount. |
| `MakeDonation.SubmitDisabled` | Donatio_AidConnect/aidconnect-bridge-main/src/pages/MakeDonation.tsx:268 | The button is disabled while submitting, without a selected request, or with the chosen type's input empty. |
| `MakeDonation.EnabledSubmitFailures` | Donatio_AidConnect/aidconnect-bridge-main/src/pages/MakeDonation.tsx:268 | With the button enabled, a press fails only for want of a login or for a non-empty amount that does not parse. |
| `MakeDonation.LeadingSpaceIgnored` | Donatio_AidConnect/aidconnect-bridge-main/src/pages/MakeDonation.tsx:69 | `parseFloat` skips leading white space. |
| `MakeDonation.ParsesAsNumber` | Donatio_AidConnect/aidconnect-bridge-main/src/pages/MakeDonation.tsx:69 | `!isNaN(parseFloat(amount))`: after leading white space and an optional sign the text starts with 'Infinity', a digit, or a point and a digit. |
| `MakeDonation.SignedDigitParses` | Donatio_AidConnect/aidconnect-bridge-main/src/pages/MakeDonation.tsx:69 | White space, an optional sign and a digit make a number, whatever follows. |
| `MakeDonation.NoDigitNoNumber` | Donatio_AidConnect/aidconnect-bridge-main/src/pages/MakeDonation.tsx:69 | Text with no digit and no 'I' is never a number. |
| `MakeDonation.ParsesAsNumberExamples` | Donatio_AidConnect/aidconnect-bridge-main/src/pages/MakeDonation.tsx:69 | '', '-' and '.' are NaN; '500', ' -.5' and '12abc' are numbers. |
| `MakeDonation.RequestIcon` | Donatio_AidConnect/aidconnect-bridge-main/src/pages/MakeDonation.tsx:97-110 | Food, Medicine, Education and Celebration each get their own icon. Every other type gets Package. |
| `MakeDonation.DonationForm.HandleSubmitDonation` | Donatio_AidConnect/aidconnect-bridge-main/src/pages/MakeDonation.tsx:58-94 | The result is `CheckDonation` of the form. `isSubmitting` becomes true only on acceptance and is otherwise unchanged. |
| `MakeDonation.DonationForm.CompleteSubmission` | Donatio_AidConnect/aidconnect-bridge-main/src/pages/MakeDonation.tsx:83-87 | Completion clears `isSubmitting`. |
| `InstituteDashboard.InstituteDashboard.UpdateField` | Donatio_AidConnect/aidconnect-bridge-main/src/components/dashboard/InstituteDashboard.tsx:91-98 | The named field takes the value and every other field keeps its value. |
| `InstituteDashboard.InstituteDashboard.HandleSubmitRequest` | Donatio_AidConnect/aidconnect-bridge-main/src/components/dashboard/InstituteDashboard.tsx:100-112 | The form is hidden and reset: every field empty, urgency 'Medium'. |
| `InstituteDashboard.InstituteDashboard.ToggleRequestForm` | Donatio_AidConnect/aidconnect-bridge-main/src/components/dashboard/InstituteDashboard.tsx:123 | Flips the form's visibility. |
| `InstituteDashboard.InstituteDashboard.CancelRequestForm` | Donatio_AidConnect/aidconnect-bridge-main/src/components/dashboard/InstituteDashboard.tsx:219 | Always hides the form. |
| `InstituteDashboard.UrgentCount` | Donatio_AidConnect/aidconnect-bridge-main/src/components/dashboard/InstituteDashboard.tsx:243 | The number of pending requests with urgency High. It never exceeds the active count, and it is 0 iff no request is High. |
| `InstituteDashboard.DashboardCounts` | Donatio_AidConnect/aidconnect-bridge-main/src/components/dashboard/InstituteDashboard.tsx:237-243 | The dashboard shows 3 active requests, 1 of them urgent. |
| `InstituteDashboard.UrgencyBadge` | Donatio_AidConnect/aidconnect-bridge-main/src/components/dashboard/InstituteDashboard.tsx:326-330 | High maps to destructive, Medium to default, Low to outline. |
| `Badges.MarkedBadge` | Donatio_AidConnect/aidconnect-bridge-main/src/components/dashboard/InstituteDashboard.tsx:351 | A two-state status badge is default iff the status is the marked one ('In Progress' here; 'Accepted' for the supplier's new orders at SupplierDashboard.tsx:233), outlined otherwise, never destructive. |
| `SupplierDashboard.NewOrderActions` | Donatio_AidConnect/aidconnect-bridge-main/src/components/dashboard/SupplierDashboard.tsx:251-279 | 'Pending Acceptance' offers exactly Reject and Accept. Any other status offers Mark Ready. |
| `SupplierDashboard.InProgressActions` | Donatio_AidConnect/aidconnect-bridge-main/src/components/dashboard/SupplierDashboard.tsx:337-358 | 'Ready for Delivery' offers Mark Delivered. Any other status offers Mark Ready. |
| `SupplierDashboard.InProgressBadge` | Donatio_AidConnect/aidconnect-bridge-main/src/components/dashboard/SupplierDashboard.tsx:320-333 | A default 'Ready' badge iff the status is 'Ready for Delivery'; otherwise an outlined 'In Progress' badge. |
| `SupplierDashboard.OneRowDisabled` | Donatio_AidConnect/aidconnect-bridge-main/src/components/dashboard/SupplierDashboard.tsx:257 | Buttons are disabled iff the loading marker equals the order's id, so at most one of two different orders is disabled. |
| `SupplierDashboard.ActionsDisabled` | Donatio_AidConnect/aidconnect-bridge-main/src/components/dashboard/SupplierDashboard.tsx:257 | A row's buttons are disabled iff the loading marker equals the order's id. |
| `SupplierDashboard.Step` | Donatio_AidConnect/aidconnect-bridge-main/src/components/dashboard/SupplierDashboard.tsx:88-94 | After a click exactly the rows of the clicked order are disabled; after a completion none is, whatever the marker was. |
| `SupplierDashboard.Run` | Donatio_AidConnect/aidconnect-bridge-main/src/components/dashboard/SupplierDashboard.tsx:88-122 | The marker after a sequence of clicks and completions never names an order no click named, and no events leave it unchanged. |
| `SupplierDashboard.LastEventDecides` | Donatio_AidConnect/aidconnect-bridge-main/src/components/dashboard/SupplierDashboard.tsx:88-122 | After any sequence of clicks and completions, the last event alone decides the marker: the clicked order's id, or none. |
| `SupplierDashboard.OverlappingActions` | Donatio_AidConnect/aidconnect-bridge-main/src/components/dashboard/SupplierDashboard.tsx:93 | The reset is unconditional: a completion clears the marker even after another order's action began. |
| `SupplierDashboard.SupplierDashboard.BeginAction` | Donatio_AidConnect/aidconnect-bridge-main/src/components/dashboard/SupplierDashboard.tsx:88-121 | Each handler sets the marker to the clicked order's id and changes nothing else. |
| `SupplierDashboard.SupplierDashboard.CompleteAction` | Donatio_AidConnect/aidconnect-bridge-main/src/components/dashboard/SupplierDashboard.tsx:91-94 | The completion clears the marker and changes nothing else. |
| `Dashboard.SelectDashboard` | Donatio_AidConnect/aidconnect-bridge-main/src/pages/Dashboard.tsx:34-45 | 'institute' and 'supplier' select their dashboards. Every other or missing role, 'donor' included, selects the donor dashboard. |
| `Dashboard.RenderPage` | Donatio_AidConnect/aidconnect-bridge-main/src/pages/Dashboard.tsx:21-45 | The loading view is shown iff loading, whatever the role. |
| `Dashboard.RedirectToLogin` | Donatio_AidConnect/aidconnect-bridge-main/src/pages/Dashboard.tsx:15-17 | The effect navigates to '/login' iff loading has finished and no profile is present. |
| `Dashboard.RedirectOnlyAfterLoading` | Donatio_AidConnect/aidconnect-bridge-main/src/pages/Dashboard.tsx:15-19 | The redirect to '/login' happens only when not loading and no profile is present. |
| `DashboardLayout.GetInitials` | Donatio_AidConnect/aidconnect-bridge-main/src/components/dashboard/DashboardLayout.tsx:24-30 | One uppercased first character per non-empty space-separated part, in order. Empty parts contribute nothing, so there are at most as many initials as parts. |
| `DashboardLayout.Heads` | Donatio_AidConnect/aidconnect-bridge-main/src/components/dashboard/DashboardLayout.tsx:27-28 | `map(part => part[0]).join('')`: the first characters of the non-empty parts, in order. |
| `DashboardLayout.DisplayName` | Donatio_AidConnect/aidconnect-bridge-main/src/components/dashboard/DashboardLayout.tsx:92 | The profile name, or "User" when it is missing or empty; never empty. |
| `DashboardLayout.DefaultInitials` | Donatio_AidConnect/aidconnect-bridge-main/src/components/dashboard/DashboardLayout.tsx:92 | Without a profile name the avatar shows "U". |
| `DashboardLayout.NavigationPathsDistinct` | Donatio_AidConnect/aidconnect-bridge-main/src/components/dashboard/DashboardLayout.tsx:41-49 | The seven navigation paths are pairwise distinct. |
| `DashboardLayout.AtMostOneHighlighted` | Donatio_AidConnect/aidconnect-bridge-main/src/components/dashboard/DashboardLayout.tsx:69 | An item is highlighted iff the path equals its own, so at most one item is highlighted. |
| `DashboardLayout.DashboardLayout.ToggleMobileMenu` | Donatio_AidConnect/aidconnect-bridge-main/src/components/dashboard/DashboardLayout.tsx:32-34 | Flips the menu state, so two toggles restore it. |

## Left out

- Network calls to the language model, `lru_cache` (`cached_llm_call`) and `generate_impact_message` are left out. Their results are the parameters `reply`, `decoded`, `verdict` and `impactMessage`. `call_groq_api` never raises, so none of the handlers can fail there.
- The regular expression `({.*})` is modelled as "some `{` precedes some `}`". `json.loads` and the JSON path's `int` casts are the `decoded` parameter.
- The part of `detect_request_anomalies` after the history comprehension is left out: the prompt, the reply parsing and its risk-3 fallback. Its result is the `verdict` parameter.
- `uuid.uuid4()` and `datetime.now()` are the parameters `freshId` and `now`.
- Flask plumbing is left out: routing, `jsonify`, `render_template`, `app.run`, and the GET routes, which return the tables unchanged. A body that is not JSON is also left out. HTTP answers are the `ApiError` datatype with `StatusCode`.
- JSON values where the service expects a number are integers or strings (`Scalar`). Floats, booleans and `null` are not modelled.
- `Text.ParseInt` accepts ASCII digits only. Python's `int` also accepts underscores between digits and non-ASCII decimal digits; neither is modelled. `str.isdigit` is likewise ASCII digits only.
- The `quantity` argument of `find_optimal_shop` only shapes the prompt and is not a parameter of the model. Shop `rating` and `distance` are floats used only in the prompt.
- Lower- and upper-casing are ASCII only.
- `Text.ParseInt` does not model CPython's limit on integer-string conversion (`sys.int_info.default_max_str_digits`, 4300 digits by default since 3.11 and its security backports). The model converts a digit string of any length, where the service raises `ValueError` on one longer than the limit. So `Ledger.ToInt`, `Text.ParseIntAccepts` and `Text.ParseIntShape` state the accepted shape for texts within that limit.
- `DashboardLayout.GetInitials` models strings as sequences of Unicode code points, not UTF-16 code units. JavaScript's `part[0]` is the first code unit, so for a part that starts with a character outside the Basic Multilingual Plane the source yields a lone surrogate, where the model keeps the whole character. The same holds for `DashboardLayout.Heads`.
- White space follows each language's definition. JavaScript's applies to `trim` and `parseFloat`. Python's `str.isspace` applies to `strip`. `int` skips the ASCII white space of C's `isspace` and every non-ASCII Python white space character.
- All JSX rendering is left out, along with charts, toasts, navigation calls, date and number formatting, and the `isLoading` spinners.
- `setTimeout` delays are discrete completion methods (`FinishLoad`, `CompleteSubmission`, `CompleteAction`).
- Amounts on the donations page and in the dashboards are JavaScript numbers, modelled as integers.
- The donations page's load and the requests page's empty load only store constants and are not modelled as methods. The donations page's total is `DonationsPage.TotalDonated`.
- The `onChange` setters of the donation form's inputs each set one field and are not modelled.
- `InstitutesPage.InstitutesPage.FinishLoad` and `SuppliersPage.SuppliersPage.FinishLoad` take the delivered list as a parameter. The source delivers `MockInstitutes` and `MockSuppliers`, and a real fetch would deliver the database's list.
- `RequestsPage.RequestsPage.ApplyFilters` models `applyFilters` (RequestsPage.tsx:45-69), but the page never calls it. The mount effect (RequestsPage.tsx:38-43) sets both `requests` and `filteredRequests` to `[]`, and no handler runs the filters. So the page as written always lists nothing. The model states what the filters would store if they ran.
- `Ledger.CreditsCombine` and `Ledger.CreditKeepsCovered` require non-negative credits, so they say nothing about negative quantities. `create_donation` accepts a negative direct_item `quantity` (app.py:397) and adds it to `fulfilled_quantity` (app.py:409-412), which lowers the total. `Ledger.Ledger.CreateDonation` models that as written.
- The payload fields `institution_id`, `item`, `request_id`, `donor_name`, `donation_type` and `shop_id` are `Option<string>` in the model. The service accepts any JSON value there, and non-string values are not modelled.
- Components that only render or delegate are not part of this model, and neither is the route table or the auth context.
