/**
 * The institutes directory page: the search effect that narrows the loaded institutes, the
 * simulated load that fills the list, and the Verified badge.
 */
module InstitutesPage {
  import opened Text
  import Lists

  datatype Institute = Institute(
    id: string,
    instituteName: string,
    address: string,
    description: string,
    phone: string,
    verified: bool)

  /** The four institutes the simulated load delivers. */
  const MockInstitutes: seq<Institute> := [
    Institute("1", "Sunshine Orphanage", "123 Main Street, Mumbai, Maharashtra",
              "A loving home for orphaned children providing education, nutrition, and healthcare.",
              "+91 9876543210", true),
    Institute("2", "Golden Age Home", "456 Oak Avenue, Delhi, Delhi",
              "Caring for elderly individuals who need assistance and companionship.",
              "+91 9876543211", true),
    Institute("3", "Hope Children Center", "789 Pine Road, Bangalore, Karnataka",
              "Supporting underprivileged children with education and basic necessities.",
              "+91 9876543212", false),
    Institute("4", "New Beginnings Shelter", "101 Cedar Lane, Chennai, Tamil Nadu",
              "Providing temporary shelter and support for homeless families.",
              "+91 9876543213", true)
  ]

  /** The lowercased term occurs in the lowercased name, address or description. */
  predicate MatchesTerm(searchTerm: string, institute: Institute) {
    var term := Lower(searchTerm);
    Contains(Lower(institute.instituteName), term) || Contains(Lower(institute.address), term) ||
    Contains(Lower(institute.description), term)
  }

  /**
   * The search effect: a blank term shows every institute; otherwise exactly the institutes
   * matching the term are shown, in list order.
   */
  function SearchInstitutes(institutes: seq<Institute>, searchTerm: string): (r: seq<Institute>)
    ensures IsBlank(searchTerm) ==> r == institutes
    ensures Lists.IsSubsequence(r, institutes)
    ensures !IsBlank(searchTerm) ==>
              (forall k :: 0 <= k < |r| ==> r[k] in institutes && MatchesTerm(searchTerm, r[k]))
              && (forall k :: 0 <= k < |institutes| && MatchesTerm(searchTerm, institutes[k]) ==> institutes[k] in r)
    ensures multiset(r) <= multiset(institutes)
    ensures forall k :: 0 <= k < |institutes| && (IsBlank(searchTerm) || MatchesTerm(searchTerm, institutes[k])) ==>
              multiset(r)[institutes[k]] == multiset(institutes)[institutes[k]]
  {
    if IsBlank(searchTerm) then
      assert Lists.IsSubsequence(institutes, institutes) by { Lists.IsSubsequenceRefl(institutes); }
      institutes
    else
      var matches := (x: Institute) => MatchesTerm(searchTerm, x);
      Lists.KeepIsSubsequence(institutes, matches);
      Lists.KeepCounts(institutes, matches);
      Lists.Keep(institutes, matches)
  }

  /** The card of an institute carries the Verified badge exactly when the institute is verified. */
  predicate ShowVerifiedBadge(institute: Institute) {
    institute.verified
  }

  /**
   * After a search, the Verified badges shown are exactly those of the verified institutes
   * the search keeps, in list order: a search never badges an unverified institute and
   * never hides a matching verified one.
   */
  lemma VerifiedBadgesAfterSearch(institutes: seq<Institute>, searchTerm: string)
    ensures Lists.Keep(SearchInstitutes(institutes, searchTerm), ShowVerifiedBadge) ==
            Lists.Keep(institutes, (x: Institute) => x.verified && (IsBlank(searchTerm) || MatchesTerm(searchTerm, x)))
  {
    var shown := (x: Institute) => x.verified && (IsBlank(searchTerm) || MatchesTerm(searchTerm, x));
    if IsBlank(searchTerm) {
      Lists.KeepSame(institutes, ShowVerifiedBadge, shown);
    } else {
      Lists.KeepKeep(institutes, (x: Institute) => MatchesTerm(searchTerm, x), ShowVerifiedBadge, shown);
    }
  }

  /** Three of the four listed institutes show the Verified badge; "Hope Children Center" does not. */
  lemma MockVerifiedBadges()
    ensures |Lists.Keep(MockInstitutes, ShowVerifiedBadge)| == 3
    ensures !ShowVerifiedBadge(MockInstitutes[2]) && MockInstitutes[2].instituteName == "Hope Children Center"
  {
    assert MockInstitutes[1..][1..][1..][1..] == [];
  }

  /** The page state. `Valid` is the search effect's outcome, re-established whenever its inputs change. */
  class InstitutesPage {
    var institutes: seq<Institute>
    var filteredInstitutes: seq<Institute>
    var searchTerm: string
    var isLoading: bool

    ghost predicate Valid()
      reads this
    {
      filteredInstitutes == SearchInstitutes(institutes, searchTerm)
    }

    constructor ()
      ensures Valid()
      ensures institutes == [] && filteredInstitutes == [] && searchTerm == "" && !isLoading
    {
      institutes := [];
      filteredInstitutes := [];
      searchTerm := "";
      isLoading := false;
    }

    /** The mount effect starts the simulated request. */
    method StartLoad()
      modifies this`isLoading
      ensures isLoading
    {
      isLoading := true;
    }

    /**
     * The simulated request completes with `loaded` (the page delivers `MockInstitutes`; a real
     * fetch would deliver the database's list): both lists are set to it, and the search
     * effect, whose input `institutes` changed, runs again; with a blank search the two lists
     * stay equal.
     */
    method FinishLoad(loaded: seq<Institute>)
      modifies this
      ensures institutes == loaded && searchTerm == old(searchTerm) && !isLoading
      ensures Valid()
      ensures IsBlank(searchTerm) ==> filteredInstitutes == institutes
    {
      institutes := loaded;
      filteredInstitutes := loaded;
      isLoading := false;
      filteredInstitutes := SearchInstitutes(institutes, searchTerm);
    }

    /** Typing in the search box: the term changes and the search effect runs. */
    method SetSearchTerm(term: string)
      modifies this`searchTerm, this`filteredInstitutes
      ensures searchTerm == term
      ensures Valid()
    {
      searchTerm := term;
      filteredInstitutes := SearchInstitutes(institutes, searchTerm);
    }
  }
}
