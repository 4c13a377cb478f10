/**
 * Supplier sourcing: the search filter over names and specialties, supplier
 * lookup by id, the item price comparison and the specialty badges
 * (src/components/SupplierSourcing.tsx).
 */
module Suppliers {
  import opened Optional
  import opened Seqs
  import Text

  datatype Supplier = Supplier(
    id: string,
    name: string,
    email: string,
    phone: string,
    address: string,
    rating: int,
    specialties: seq<string>,
    paymentTerms: seq<string>,
    leadTime: string,
    verified: bool)

  datatype SupplierItem = SupplierItem(
    id: string,
    supplierId: string,
    itemName: string,
    brand: string,
    price: int,
    currency: string,
    minQuantity: int,
    leadTime: string,
    paymentTerms: string,
    specifications: string,
    lastUpdated: string)

  /** `a.toLowerCase().includes(b.toLowerCase())`. */
  predicate ContainsIgnoringCase(a: string, b: string)
  {
    Text.Includes(Text.Lower(a), Text.Lower(b))
  }

  /** `specialties.some(...)`: some specialty contains the term. */
  function SomeSpecialtyMatches(specialties: seq<string>, term: string): (b: bool)
    ensures b <==> exists i :: 0 <= i < |specialties| && ContainsIgnoringCase(specialties[i], term)
  {
    if specialties == [] then false
    else ContainsIgnoringCase(specialties[0], term) || SomeSpecialtyMatches(specialties[1..], term)
  }

  predicate SupplierMatches(s: Supplier, term: string)
  {
    ContainsIgnoringCase(s.name, term) || SomeSpecialtyMatches(s.specialties, term)
  }

  /** `filteredSuppliers`: the suppliers whose name or some specialty contains the term. */
  function FilterSuppliers(suppliers: seq<Supplier>, term: string): (r: seq<Supplier>)
    ensures forall s :: s in r <==>
      && s in suppliers
      && (|| ContainsIgnoringCase(s.name, term)
          || exists i :: 0 <= i < |s.specialties| && ContainsIgnoringCase(s.specialties[i], term))
    ensures IsSubsequence(r, suppliers)
  {
    FilterIsSubsequence(suppliers, (s: Supplier) => SupplierMatches(s, term));
    Filter(suppliers, (s: Supplier) => SupplierMatches(s, term))
  }

  /** An empty search term lists every supplier. */
  lemma EmptyTermKeepsAll(suppliers: seq<Supplier>)
    ensures FilterSuppliers(suppliers, "") == suppliers
  {
    forall i | 0 <= i < |suppliers| ensures SupplierMatches(suppliers[i], "") {
      Text.IncludesEmpty(Text.Lower(suppliers[i].name));
    }
    FilterKeepsAll(suppliers, (s: Supplier) => SupplierMatches(s, ""));
  }

  /** `k` is the position of the first supplier carrying the id. */
  predicate FirstWithId(suppliers: seq<Supplier>, id: string, k: int)
  {
    0 <= k < |suppliers| && suppliers[k].id == id && forall j :: 0 <= j < k ==> suppliers[j].id != id
  }

  /** `suppliers.find(s => s.id === supplierId)`: the first supplier with the id. */
  function FindSupplier(suppliers: seq<Supplier>, id: string): (r: Option<Supplier>)
    ensures r == None <==> forall j :: 0 <= j < |suppliers| ==> suppliers[j].id != id
    ensures r.Some? ==> r.value.id == id
    ensures r.Some? ==> exists k :: FirstWithId(suppliers, id, k) && suppliers[k] == r.value
  {
    if suppliers == [] then None
    else if suppliers[0].id == id then Some(suppliers[0])
    else
      var r := FindSupplier(suppliers[1..], id);
      assert r.Some? ==> exists k :: FirstWithId(suppliers, id, k) && suppliers[k] == r.value by {
        if r.Some? {
          var k :| FirstWithId(suppliers[1..], id, k) && suppliers[1..][k] == r.value;
          assert FirstWithId(suppliers, id, k + 1);
        }
      }
      r
  }

  const UnknownSupplier := "Unknown Supplier"

  /**
   * `getSupplierName`: the first matching supplier's name, and the fallback
   * when none matches or (through `||`) when that name is empty.
   */
  function SupplierName(suppliers: seq<Supplier>, id: string): (name: string)
    ensures FindSupplier(suppliers, id) == None ==> name == UnknownSupplier
    ensures FindSupplier(suppliers, id).Some? ==>
      name == if FindSupplier(suppliers, id).value.name == "" then UnknownSupplier
              else FindSupplier(suppliers, id).value.name
    ensures name != ""
  {
    match FindSupplier(suppliers, id)
    case None => UnknownSupplier
    case Some(s) => if s.name != "" then s.name else UnknownSupplier
  }

  /** `getItemComparisons`: the supplier items whose name contains the query, in order. */
  function ItemComparisons(items: seq<SupplierItem>, query: string): (r: seq<SupplierItem>)
    ensures forall it :: it in r <==> it in items && ContainsIgnoringCase(it.itemName, query)
    ensures IsSubsequence(r, items)
  {
    FilterIsSubsequence(items, (it: SupplierItem) => ContainsIgnoringCase(it.itemName, query));
    Filter(items, (it: SupplierItem) => ContainsIgnoringCase(it.itemName, query))
  }

  /** How many specialty badges a supplier card shows before the "+N more" badge. */
  const ShownSpecialties := 3

  /** The specialty badges of a card: the first three, and the count of the rest when there are more. */
  function SpecialtyBadges(specialties: seq<string>): (r: (seq<string>, Option<nat>))
    ensures |r.0| == if |specialties| < ShownSpecialties then |specialties| else ShownSpecialties
    ensures r.0 <= specialties
    ensures r.1.Some? <==> |specialties| > ShownSpecialties
    ensures r.1.Some? ==> |r.0| + r.1.value == |specialties|
  {
    var shown := if |specialties| < ShownSpecialties then specialties else specialties[..ShownSpecialties];
    (shown, if |specialties| > ShownSpecialties then Some(|specialties| - ShownSpecialties) else None)
  }

  /** The "+N more" badge's text: a plus sign, the decimal digits of `n`, then " more". */
  function MoreBadge(n: nat): (b: string)
    ensures |b| > 6 && b[0] == '+' && b[|b| - 5..] == " more"
    ensures Text.IsDigits(b[1..|b| - 5]) && Text.ParseNat(b[1..|b| - 5]) == n
  {
    Text.ParseNatToString(n);
    var b := "+" + Text.NatToString(n) + " more";
    assert b[1..|b| - 5] == Text.NatToString(n);
    b
  }
}
