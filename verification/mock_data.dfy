/**
 * The supplier reference list (mockData.ts), in its original order: the first
 * four entries are the collection accounts, then the regular suppliers, then
 * the fallback "to be created" supplier. The engine searches it first-match,
 * so the order is part of its behaviour.
 */
module MockData {

  import opened Types
  import opened Find

  const FALLBACK_ID: string := "SUP999"

  const SUPPLIERS: seq<Supplier> := [
    Supplier("VC_FUEL", "xxxxx verzamelcrediteur tankbonnen", true, Some(Fuel), None),
    Supplier("VC_SUPER", "xxxxx verzamelcrediteur supermarktbonnen", true, Some(Supermarket), None),
    Supplier("VC_HORECA", "xxxxx verzamelcrediteur horeca", true, Some(Horeca), None),
    Supplier("VC_OTHER", "xxxxx verzamelcrediteur overige bonnen", true, Some(Other), None),
    Supplier("SUP005", "KPN Zakelijk", false, None, Some("4100")),
    Supplier("SUP006", "Coolblue Coolbusiness", false, None, Some("4500")),
    Supplier(FALLBACK_ID, "xxxxx Nog aan te maken leveranciers", false, None, None)
  ]

  /** The identifiers of the reference suppliers. */
  ghost predicate IsSupplierId(id: string)
  {
    exists k :: 0 <= k < |SUPPLIERS| && SUPPLIERS[k].id == id
  }

  /** The identifiers of the four collection accounts. */
  ghost predicate IsCollectionId(id: string)
  {
    exists k :: 0 <= k < |SUPPLIERS| && SUPPLIERS[k].id == id && SUPPLIERS[k].isCollectionAccount
  }

  /** Position `k` is the first supplier of the list with category `c`. */
  ghost predicate FirstWithCategory(c: Category, k: int)
  {
    && 0 <= k < |SUPPLIERS|
    && SUPPLIERS[k].category == Some(c)
    && forall j :: 0 <= j < k ==> SUPPLIERS[j].category != Some(c)
  }

  /** The first supplier of the list with category `c` (`SUPPLIERS.find(s => s.category === c)`). */
  function CollectionAccount(c: Category): (r: Option<Supplier>)
    ensures r.Some? ==> exists k :: 0 <= k < |SUPPLIERS| && SUPPLIERS[k] == r.value && FirstWithCategory(c, k)
    ensures r.None? ==> forall k :: 0 <= k < |SUPPLIERS| ==> SUPPLIERS[k].category != Some(c)
  {
    match FindFirst(SUPPLIERS, (s: Supplier) => s.category == Some(c))
    case None => None
    case Some(k) => Some(SUPPLIERS[k])
  }

  /** The fallback supplier (`SUPPLIERS.find(s => s.id === 'SUP999')`). */
  function Fallback(): (r: Option<Supplier>)
    ensures r.Some? ==> r.value in SUPPLIERS && r.value.id == FALLBACK_ID
    ensures r.None? ==> forall k :: 0 <= k < |SUPPLIERS| ==> SUPPLIERS[k].id != FALLBACK_ID
  {
    match FindFirst(SUPPLIERS, (s: Supplier) => s.id == FALLBACK_ID)
    case None => None
    case Some(k) => Some(SUPPLIERS[k])
  }

  /**
   * `CollectionAccount(c)` is the entry at position `k` when that entry is the
   * first of its category.
   */
  lemma CollectionAccountAt(c: Category, k: nat)
    requires k < |SUPPLIERS| && SUPPLIERS[k].category == Some(c)
    requires forall j :: 0 <= j < k ==> SUPPLIERS[j].category != Some(c)
    ensures CollectionAccount(c) == Some(SUPPLIERS[k])
  {
    var p := (s: Supplier) => s.category == Some(c);
    var r := FindFirst(SUPPLIERS, p);
    assert p(SUPPLIERS[k]);
    assert r.Some? && r.value == k;
  }

  /** The identifier of the collection account of each category. */
  function CollectionId(c: Category): string
  {
    match c
    case Fuel => "VC_FUEL"
    case Supermarket => "VC_SUPER"
    case Horeca => "VC_HORECA"
    case Other => "VC_OTHER"
  }

  /** The position of each category's collection account in the list. */
  function CollectionIndex(c: Category): nat
  {
    match c
    case Fuel => 0
    case Supermarket => 1
    case Horeca => 2
    case Other => 3
  }

  /** Each category is routed to its own collection account. */
  lemma CollectionAccountOf(c: Category)
    ensures CollectionIndex(c) < |SUPPLIERS| && CollectionAccount(c) == Some(SUPPLIERS[CollectionIndex(c)])
    ensures CollectionAccount(c).Some?
    ensures CollectionAccount(c).value.id == CollectionId(c)
    ensures CollectionAccount(c).value.isCollectionAccount
    ensures CollectionAccount(c).value.category == Some(c)
  {
    match c
    case Fuel => CollectionAccountAt(Fuel, 0);
    case Supermarket => CollectionAccountAt(Supermarket, 1);
    case Horeca => CollectionAccountAt(Horeca, 2);
    case Other => CollectionAccountAt(Other, 3);
  }

  lemma FallbackIsLast()
    ensures Fallback() == Some(SUPPLIERS[6]) && SUPPLIERS[6].id == FALLBACK_ID
  {
  }

  /**
   * The shape of the reference list: seven suppliers with distinct ids; the
   * first four are the collection accounts, one per category, and only they
   * carry a category; the fallback comes last.
   */
  lemma SupplierList()
    ensures |SUPPLIERS| == 7
    ensures forall i, j :: 0 <= i < j < |SUPPLIERS| ==> SUPPLIERS[i].id != SUPPLIERS[j].id
    ensures forall k :: 0 <= k < |SUPPLIERS| ==> (SUPPLIERS[k].isCollectionAccount <==> k < 4)
    ensures forall k :: 0 <= k < |SUPPLIERS| ==> (SUPPLIERS[k].category.Some? <==> SUPPLIERS[k].isCollectionAccount)
    ensures forall i, j :: 0 <= i < j < 4 ==> SUPPLIERS[i].category != SUPPLIERS[j].category
    ensures SUPPLIERS[|SUPPLIERS| - 1].id == FALLBACK_ID
  {
  }

  /** Every supplier has a non-empty id and name, so the `||` fallbacks never fire. */
  lemma SupplierFieldsNonEmpty()
    ensures forall k :: 0 <= k < |SUPPLIERS| ==> SUPPLIERS[k].id != "" && SUPPLIERS[k].name != ""
  {
  }
}
