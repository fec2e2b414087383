/**
 * The donation form: the ordered checks of `handleSubmitDonation`, the submit button's
 * disabled rule, the `isSubmitting` flag, and the icon chosen for a request type.
 */
module MakeDonation {
  import opened Text

  /** The radio choice of the form. */
  datatype DonationKind = Money | Item

  /** The outcome of pressing submit: the first failing check, or acceptance. */
  datatype SubmitCheck = NotLoggedIn | NoRequestSelected | InvalidAmount | NoItems | Accepted

  /**
   * `!isNaN(parseFloat(s))`: after leading white space and an optional sign, the text starts
   * with `Infinity`, with a digit, or with a point followed by a digit.
   */
  predicate ParsesAsNumber(s: string) {
    var t := DropLeading(s, IsJsSpace);
    var u := if t != [] && (t[0] == '+' || t[0] == '-') then t[1..] else t;
    "Infinity" <= u || (u != [] && IsDigit(u[0])) || (|u| >= 2 && u[0] == '.' && IsDigit(u[1]))
  }

  /** Leading white space does not change whether the amount parses. */
  lemma LeadingSpaceIgnored(c: char, s: string)
    requires IsJsSpace(c)
    ensures ParsesAsNumber([c] + s) == ParsesAsNumber(s)
  {
    assert ([c] + s)[1..] == s;
  }

  /**
   * White space, an optional sign and a digit make a number, whatever follows the digit:
   * `parseFloat` reads the longest numeric prefix.
   */
  lemma SignedDigitParses(ws: string, sign: string, rest: string)
    requires forall k :: 0 <= k < |ws| ==> IsJsSpace(ws[k])
    requires sign == "" || sign == "+" || sign == "-"
    requires rest != [] && IsDigit(rest[0])
    ensures ParsesAsNumber(ws + sign + rest)
  {
    var t := sign + rest;
    assert ws + sign + rest == ws + t;
    assert t[0] == (if sign == "" then rest[0] else sign[0]);
    DropLeadingPrefix(ws, t, IsJsSpace);
    if sign != "" {
      assert t[1..] == rest;
    }
  }

  /** Text with no digit and no `I` (so no `Infinity`) never makes a number. */
  lemma NoDigitNoNumber(s: string)
    requires forall k :: 0 <= k < |s| ==> !IsDigit(s[k]) && s[k] != 'I'
    ensures !ParsesAsNumber(s)
  {
    DropLeadingIsSuffix(s, IsJsSpace);
    var t := DropLeading(s, IsJsSpace);
    var off := |s| - |t|;
    assert forall k :: 0 <= k < |t| ==> t[k] == s[off + k];
    var u := if t != [] && (t[0] == '+' || t[0] == '-') then t[1..] else t;
    var d := |t| - |u|;
    assert forall k :: 0 <= k < |u| ==> u[k] == t[d + k];
    if u != [] {
      assert u[0] == s[off + d];
    }
    if |u| >= 2 {
      assert u[1] == s[off + d + 1];
    }
  }

  /** An empty amount and a lone sign do not parse; a leading digit does. */
  lemma ParsesAsNumberExamples()
    ensures !ParsesAsNumber("") && !ParsesAsNumber("-") && !ParsesAsNumber(".")
    ensures ParsesAsNumber("500") && ParsesAsNumber(" -.5") && ParsesAsNumber("12abc")
  {
    assert DropLeading(" -.5", IsJsSpace) == "-.5";
  }

  /**
   * `handleSubmitDonation`'s checks, in order: a logged-in user, a selected request, then
   * only the input of the chosen donation type: a non-empty amount that parses as a number,
   * or non-empty items. The first failing check decides the outcome.
   */
  function CheckDonation(loggedIn: bool, requestSelected: bool, kind: DonationKind, amount: string, items: string): (c: SubmitCheck)
    ensures c == NotLoggedIn <==> !loggedIn
    ensures c == NoRequestSelected <==> loggedIn && !requestSelected
    ensures c == InvalidAmount <==> loggedIn && requestSelected && kind == Money && (amount == "" || !ParsesAsNumber(amount))
    ensures c == NoItems <==> loggedIn && requestSelected && kind == Item && items == ""
    ensures c == Accepted <==>
              loggedIn && requestSelected &&
              (kind == Money ==> amount != "" && ParsesAsNumber(amount)) && (kind == Item ==> items != "")
  {
    if !loggedIn then NotLoggedIn
    else if !requestSelected then NoRequestSelected
    else if kind == Money && (amount == "" || !ParsesAsNumber(amount)) then InvalidAmount
    else if kind == Item && items == "" then NoItems
    else Accepted
  }

  /** Only the input of the chosen donation type is looked at. */
  lemma OnlyChosenInputMatters(loggedIn: bool, requestSelected: bool, amount: string, amount': string, items: string, items': string)
    ensures CheckDonation(loggedIn, requestSelected, Money, amount, items) == CheckDonation(loggedIn, requestSelected, Money, amount, items')
    ensures CheckDonation(loggedIn, requestSelected, Item, amount, items) == CheckDonation(loggedIn, requestSelected, Item, amount', items)
  {
  }

  /** The submit button's `disabled` condition. */
  predicate SubmitDisabled(isSubmitting: bool, requestSelected: bool, kind: DonationKind, amount: string, items: string) {
    isSubmitting || !requestSelected || (kind == Money && amount == "") || (kind == Item && items == "")
  }

  /**
   * A press on the enabled button can fail only for want of a login or because a non-empty
   * amount does not parse: the button's rule already excludes the other failures.
   */
  lemma EnabledSubmitFailures(loggedIn: bool, requestSelected: bool, kind: DonationKind, amount: string, items: string)
    requires !SubmitDisabled(false, requestSelected, kind, amount, items)
    ensures var c := CheckDonation(loggedIn, requestSelected, kind, amount, items);
            c == Accepted || c == NotLoggedIn || (c == InvalidAmount && amount != "" && !ParsesAsNumber(amount))
  {
  }

  /** The icon shown for a request type. */
  datatype Icon = Apple | Heart | BookOpen | Cake | Package

  /** `getRequestIcon`: four known types have their own icon; every other type gets the package icon. */
  function RequestIcon(kind: string): (icon: Icon)
    ensures icon == Package <==> kind != "Food" && kind != "Medicine" && kind != "Education" && kind != "Celebration"
    ensures kind == "Food" <==> icon == Apple
    ensures kind == "Medicine" <==> icon == Heart
    ensures kind == "Education" <==> icon == BookOpen
    ensures kind == "Celebration" <==> icon == Cake
  {
    match kind
    case "Food" => Apple
    case "Medicine" => Heart
    case "Education" => BookOpen
    case "Celebration" => Cake
    case _ => Package
  }

  /** The form's state. The selected request is fixed for the page's life. */
  class DonationForm {
    var donationType: DonationKind
    var amount: string
    var items: string
    var isSubmitting: bool
    const requestSelected: bool

    constructor (requestSelected: bool)
      ensures donationType == Money && amount == "" && items == "" && !isSubmitting
      ensures this.requestSelected == requestSelected
    {
      donationType := Money;
      amount := "";
      items := "";
      isSubmitting := false;
      this.requestSelected := requestSelected;
    }

    /**
     * `handleSubmitDonation`: runs the checks and sets `isSubmitting` only when all of them
     * pass; a failing check leaves the form as it was.
     */
    method HandleSubmitDonation(loggedIn: bool) returns (c: SubmitCheck)
      modifies this`isSubmitting
      ensures c == CheckDonation(loggedIn, requestSelected, donationType, amount, items)
      ensures isSubmitting == (if c == Accepted then true else old(isSubmitting))
    {
      c := CheckDonation(loggedIn, requestSelected, donationType, amount, items);
      if c == Accepted {
        isSubmitting := true;
      }
    }

    /** The simulated request completes and clears `isSubmitting`. */
    method CompleteSubmission()
      modifies this`isSubmitting
      ensures !isSubmitting
    {
      isSubmitting := false;
    }
  }
}
