/**
 * The dashboard frame: the avatar initials, the displayed user name, the navigation entries
 * with the highlighted one, and the mobile menu switch.
 */
module DashboardLayout {
  import opened Wrappers
  import opened Text
  import Lists

  /** `profile?.name || "User"`: the profile name, or "User" when it is missing or empty. */
  function DisplayName(profileName: Option<string>): (name: string)
    ensures name != ""
    ensures profileName.Some? && profileName.value != "" ==> name == profileName.value
    ensures profileName.None? ==> name == "User"
    ensures !(profileName.Some? && profileName.value != "") ==> name == "User"
  {
    match profileName
    case Some(n) => if n != "" then n else "User"
    case None => "User"
  }

  predicate NonEmpty(part: string) {
    part != ""
  }

  /** `.map(part => part[0]).join('')`: the first character of every part; an empty part adds nothing. */
  function Heads(parts: seq<string>): (r: string)
    ensures |r| == |Lists.Keep(parts, NonEmpty)|
    ensures forall k :: 0 <= k < |r| ==> r[k] == Lists.Keep(parts, NonEmpty)[k][0]
  {
    if parts == [] then ""
    else if parts[0] == "" then
      assert Lists.Keep(parts, NonEmpty) == Lists.Keep(parts[1..], NonEmpty);
      Heads(parts[1..])
    else
      assert Lists.Keep(parts, NonEmpty) == [parts[0]] + Lists.Keep(parts[1..], NonEmpty);
      [parts[0][0]] + Heads(parts[1..])
  }

  /**
   * `getInitials`: the name is split at every space, and the first character of each
   * non-empty part is kept, uppercased; so there is at most one initial per part.
   */
  function GetInitials(name: string): (initials: string)
    ensures |initials| <= |Split(name, ' ')|
    ensures |initials| == |Lists.Keep(Split(name, ' '), NonEmpty)|
    ensures forall k :: 0 <= k < |initials| ==> initials[k] == UpperChar(Lists.Keep(Split(name, ' '), NonEmpty)[k][0])
  {
    Upper(Heads(Split(name, ' ')))
  }

  /** Without a profile name the avatar shows "U". */
  lemma DefaultInitials()
    ensures GetInitials(DisplayName(None)) == "U"
  {
    var parts := Split("User", ' ');
    assert Join(parts, ' ') == "User";
    if |parts| > 1 {
      JoinHasSeparator(parts, ' ');
    }
    assert parts[0] == "User" by {
      assert Join(parts, ' ') == parts[0];
    }
    assert Lists.Keep(parts, NonEmpty) == ["User"];
  }

  /** Joining two or more parts puts the separator in the result. */
  lemma JoinHasSeparator(parts: seq<string>, sep: char)
    requires |parts| > 1
    ensures sep in Join(parts, sep)
  {
    assert Join(parts, sep) == parts[0] + [sep] + Join(parts[1..], sep);
    assert (parts[0] + [sep] + Join(parts[1..], sep))[|parts[0]|] == sep;
  }

  /** A navigation entry. */
  datatype NavItem = NavItem(name: string, path: string)

  const Navigation: seq<NavItem> := [
    NavItem("Dashboard", "/dashboard"),
    NavItem("Donations", "/dashboard/donations"),
    NavItem("Requests", "/dashboard/requests"),
    NavItem("Institutes", "/dashboard/institutes"),
    NavItem("Suppliers", "/dashboard/suppliers"),
    NavItem("Analytics", "/dashboard/analytics"),
    NavItem("Settings", "/dashboard/settings")
  ]

  /** An entry is highlighted when the current path equals its path exactly. */
  predicate Highlighted(pathname: string, item: NavItem) {
    pathname == item.path
  }

  /** The navigation paths are pairwise distinct. */
  lemma NavigationPathsDistinct()
    ensures forall i, j :: 0 <= i < j < |Navigation| ==> Navigation[i].path != Navigation[j].path
  {
  }

  /** At most one navigation entry is highlighted, whatever the current path. */
  lemma AtMostOneHighlighted(pathname: string, i: nat, j: nat)
    requires i < |Navigation| && j < |Navigation|
    requires Highlighted(pathname, Navigation[i]) && Highlighted(pathname, Navigation[j])
    ensures i == j
  {
    NavigationPathsDistinct();
  }

  /** The layout's own state: whether the mobile menu is open. */
  class DashboardLayout {
    var isMobileMenuOpen: bool

    constructor ()
      ensures !isMobileMenuOpen
    {
      isMobileMenuOpen := false;
    }

    /** `toggleMobileMenu`: flips the menu, so two toggles restore it. */
    method ToggleMobileMenu()
      modifies this
      ensures isMobileMenuOpen == !old(isMobileMenuOpen)
    {
      isMobileMenuOpen := !isMobileMenuOpen;
    }
  }
}
