/**
 * The suppliers directory page: the search effect over name, address and the list of
 * services, and the simulated load that fills the list.
 */
module SuppliersPage {
  import opened Text
  import Lists

  datatype Supplier = Supplier(id: string, shopName: string, address: string, phone: string, services: seq<string>)

  /** The four suppliers the simulated load delivers. */
  const MockSuppliers: seq<Supplier> := [
    Supplier("1", "Fresh Grocery Store", "123 Market Street, Mumbai, Maharashtra", "+91 9876543210",
             ["Groceries", "Vegetables", "Fruits"]),
    Supplier("2", "City Bakery", "456 Bread Lane, Delhi, Delhi", "+91 9876543211",
             ["Bakery", "Cakes", "Pastries"]),
    Supplier("3", "Med World Pharmacy", "789 Health Road, Bangalore, Karnataka", "+91 9876543212",
             ["Medicines", "Healthcare", "First Aid"]),
    Supplier("4", "Book Haven", "101 Knowledge Street, Chennai, Tamil Nadu", "+91 9876543213",
             ["Books", "Stationery", "School Supplies"])
  ]

  /** `services.some(...)`: some service, lowercased, contains the lowercased term. */
  predicate SomeServiceMatches(services: seq<string>, term: string)
    ensures SomeServiceMatches(services, term) <==> exists k :: 0 <= k < |services| && Contains(Lower(services[k]), term)
  {
    if services == [] then false
    else Contains(Lower(services[0]), term) || SomeServiceMatches(services[1..], term)
  }

  /** The lowercased term occurs in the lowercased shop name or address, or in some service. */
  predicate MatchesTerm(searchTerm: string, supplier: Supplier) {
    var term := Lower(searchTerm);
    Contains(Lower(supplier.shopName), term) || Contains(Lower(supplier.address), term) ||
    SomeServiceMatches(supplier.services, term)
  }

  /**
   * The search effect: a blank term shows every supplier; otherwise exactly the suppliers
   * matching the term are shown, in list order.
   */
  function SearchSuppliers(suppliers: seq<Supplier>, searchTerm: string): (r: seq<Supplier>)
    ensures IsBlank(searchTerm) ==> r == suppliers
    ensures !IsBlank(searchTerm) ==> Lists.IsSubsequence(r, suppliers)
    ensures !IsBlank(searchTerm) ==>
              (forall k :: 0 <= k < |r| ==> r[k] in suppliers && MatchesTerm(searchTerm, r[k]))
              && (forall k :: 0 <= k < |suppliers| && MatchesTerm(searchTerm, suppliers[k]) ==> suppliers[k] in r)
    ensures multiset(r) <= multiset(suppliers)
    ensures forall k :: 0 <= k < |suppliers| && (IsBlank(searchTerm) || MatchesTerm(searchTerm, suppliers[k])) ==>
              multiset(r)[suppliers[k]] == multiset(suppliers)[suppliers[k]]
  {
    if IsBlank(searchTerm) then suppliers
    else
      var matches := (x: Supplier) => MatchesTerm(searchTerm, x);
      Lists.KeepIsSubsequence(suppliers, matches);
      Lists.KeepCounts(suppliers, matches);
      Lists.Keep(suppliers, matches)
  }

  /** A supplier whose name and address do not match is still shown when one of its services does. */
  lemma ServiceMatchSuffices(suppliers: seq<Supplier>, searchTerm: string, k: nat, j: nat)
    requires !IsBlank(searchTerm)
    requires k < |suppliers| && j < |suppliers[k].services|
    requires Contains(Lower(suppliers[k].services[j]), Lower(searchTerm))
    ensures suppliers[k] in SearchSuppliers(suppliers, searchTerm)
  {
    assert SomeServiceMatches(suppliers[k].services, Lower(searchTerm));
  }

  /** The page state. `Valid` is the search effect's outcome, re-established whenever its inputs change. */
  class SuppliersPage {
    var suppliers: seq<Supplier>
    var filteredSuppliers: seq<Supplier>
    var searchTerm: string
    var isLoading: bool

    ghost predicate Valid()
      reads this
    {
      filteredSuppliers == SearchSuppliers(suppliers, searchTerm)
    }

    constructor ()
      ensures Valid()
      ensures suppliers == [] && filteredSuppliers == [] && searchTerm == "" && !isLoading
    {
      suppliers := [];
      filteredSuppliers := [];
      searchTerm := "";
      isLoading := false;
    }

    /** The mount effect starts the simulated request. */
    method StartLoad()
      modifies this`isLoading
      ensures isLoading
    {
      isLoading := true;
    }

    /**
     * The simulated request completes with `loaded` (the page delivers `MockSuppliers`; a real
     * fetch would deliver the database's list): both lists are set to it, and the search
     * effect, whose input `suppliers` changed, runs again; with a blank search the two lists
     * stay equal.
     */
    method FinishLoad(loaded: seq<Supplier>)
      modifies this
      ensures suppliers == loaded && searchTerm == old(searchTerm) && !isLoading
      ensures Valid()
      ensures IsBlank(searchTerm) ==> filteredSuppliers == suppliers
    {
      suppliers := loaded;
      filteredSuppliers := loaded;
      isLoading := false;
      filteredSuppliers := SearchSuppliers(suppliers, searchTerm);
    }

    /** Typing in the search box: the term changes and the search effect runs. */
    method SetSearchTerm(term: string)
      modifies this`searchTerm, this`filteredSuppliers
      ensures searchTerm == term
      ensures Valid()
    {
      searchTerm := term;
      filteredSuppliers := SearchSuppliers(suppliers, searchTerm);
    }
  }
}
