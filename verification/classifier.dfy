/**
 * Classification and routing of an incoming document (classifyAndRoute in
 * services/aiEngine.ts): receipt or invoice, and the supplier it is booked on
 * together with a fixed confidence.
 */
module Classifier {

  import opened Types
  import opened Find
  import opened Text
  import opened MockData

  /** The part of a document the classifier fills in. */
  datatype Classification = Classification(
    docType: DocType,
    supplierId: string,
    supplierName: string,
    confidence: real)

  const RECEIPT_KEYWORDS: seq<string> := ["bon", "receipt", "kassa"]
  const FUEL_KEYWORDS: seq<string> := ["shell", "esso", "tank"]
  const HORECA_KEYWORDS: seq<string> := ["cafe", "restaurant", "lunch"]
  const SUPERMARKET_KEYWORDS: seq<string> := ["ah", "jumbo", "albert heijn"]

  /** Some keyword of `keywords` is a substring of `text`. */
  ghost predicate Mentions(text: string, keywords: seq<string>)
  {
    exists k :: 0 <= k < |keywords| && Occurs(text, keywords[k])
  }

  /** The confidence attached to each collection account. */
  function ReceiptConfidence(c: Category): real
  {
    match c
    case Fuel => 0.95
    case Horeca => 0.92
    case Supermarket => 0.98
    case Other => 0.85
  }

  /** The receipt cascade over the lowercased text: fuel, then horeca, then supermarket. */
  function ReceiptCategory(lowerText: string): (c: Category)
    ensures c == Fuel <==> Mentions(lowerText, FUEL_KEYWORDS)
    ensures c == Horeca <==> !Mentions(lowerText, FUEL_KEYWORDS) && Mentions(lowerText, HORECA_KEYWORDS)
    ensures c == Supermarket <==>
      !Mentions(lowerText, FUEL_KEYWORDS) && !Mentions(lowerText, HORECA_KEYWORDS)
      && Mentions(lowerText, SUPERMARKET_KEYWORDS)
  {
    if ContainsAny(lowerText, FUEL_KEYWORDS) then Fuel
    else if ContainsAny(lowerText, HORECA_KEYWORDS) then Horeca
    else if ContainsAny(lowerText, SUPERMARKET_KEYWORDS) then Supermarket
    else Other
  }

  /** The lowercased name of `s` is a substring of `lowerText`. */
  predicate NameIn(lowerText: string, s: Supplier)
  {
    Contains(lowerText, ToLower(s.name))
  }

  /** Position `k` holds the first supplier, in list order, whose name the text contains. */
  ghost predicate FirstNameMatch(lowerText: string, k: int)
  {
    && 0 <= k < |SUPPLIERS|
    && Occurs(lowerText, ToLower(SUPPLIERS[k].name))
    && forall j :: 0 <= j < k ==> !Occurs(lowerText, ToLower(SUPPLIERS[j].name))
  }

  /** The position of the first supplier whose name the text contains. */
  function InvoiceMatch(lowerText: string): (r: Option<nat>)
    ensures r.Some? ==> FirstNameMatch(lowerText, r.value)
    ensures r.None? ==> forall k :: 0 <= k < |SUPPLIERS| ==> !Occurs(lowerText, ToLower(SUPPLIERS[k].name))
  {
    FindFirst(SUPPLIERS, (s: Supplier) => NameIn(lowerText, s))
  }

  /**
   * The matched supplier (if any) and the confidence. A receipt goes to the
   * collection account of its category; an invoice goes to the first supplier
   * whose name it mentions unless that is the fallback, and otherwise to the
   * fallback with the default confidence 0.65.
   */
  function Route(lowerText: string, isReceipt: bool): (r: (Option<Supplier>, real))
    ensures r.0.Some? && r.0.value in SUPPLIERS
    ensures 0.0 <= r.1 <= 1.0
    ensures isReceipt ==> r.0.value.isCollectionAccount && r.0.value.category == Some(ReceiptCategory(lowerText))
    ensures !isReceipt ==> (r.1 == 0.99 <==> r.0.value.id != FALLBACK_ID)
    ensures !isReceipt && r.1 == 0.99 ==> exists k :: FirstNameMatch(lowerText, k) && SUPPLIERS[k] == r.0.value
  {
    FallbackIsLast();
    if isReceipt then
      var c := ReceiptCategory(lowerText);
      CollectionAccountOf(c);
      (CollectionAccount(c), ReceiptConfidence(c))
    else
      match InvoiceMatch(lowerText)
      case Some(k) =>
        if SUPPLIERS[k].id != FALLBACK_ID then (Some(SUPPLIERS[k]), 0.99)
        else (Fallback(), 0.65)
      case None => (Fallback(), 0.65)
  }

  /**
   * Classifies a document from its extracted text. The file name is accepted
   * and ignored. A missing or empty supplier id or name falls back to "SUP999"
   * and "Unknown", as JavaScript's `||` does.
   */
  function ClassifyAndRoute(fileName: string, rawText: string): (r: Classification)
    ensures r.docType == Receipt <==> Mentions(ToLower(rawText), RECEIPT_KEYWORDS)
    ensures r.docType == Invoice <==> !Mentions(ToLower(rawText), RECEIPT_KEYWORDS)
    ensures IsSupplierId(r.supplierId)
    ensures r.docType == Receipt ==> IsCollectionId(r.supplierId)
    ensures 0.0 <= r.confidence <= 1.0
    ensures exists k :: 0 <= k < |SUPPLIERS| && SUPPLIERS[k].id == r.supplierId && SUPPLIERS[k].name == r.supplierName
  {
    var lowerText := ToLower(rawText);
    var isReceipt := ContainsAny(lowerText, RECEIPT_KEYWORDS);
    var (matched, confidence) := Route(lowerText, isReceipt);
    var id := if matched.Some? && matched.value.id != "" then matched.value.id else FALLBACK_ID;
    var name := if matched.Some? && matched.value.name != "" then matched.value.name else "Unknown";
    assert exists k ::
        && 0 <= k < |SUPPLIERS|
        && SUPPLIERS[k].id == id && SUPPLIERS[k].name == name
        && (isReceipt ==> SUPPLIERS[k].isCollectionAccount)
    by {
      SupplierFieldsNonEmpty();
      var k :| 0 <= k < |SUPPLIERS| && SUPPLIERS[k] == matched.value;
      assert SUPPLIERS[k].id == id && SUPPLIERS[k].name == name;
    }
    Classification(if isReceipt then Receipt else Invoice, id, name, confidence)
  }

  lemma CollectionIds(c: Category)
    ensures IsCollectionId(CollectionId(c)) && IsSupplierId(CollectionId(c))
  {
    match c
    case Fuel => assert SUPPLIERS[0].id == CollectionId(c);
    case Supermarket => assert SUPPLIERS[1].id == CollectionId(c);
    case Horeca => assert SUPPLIERS[2].id == CollectionId(c);
    case Other => assert SUPPLIERS[3].id == CollectionId(c);
  }

  /** A receipt is routed through the ordered cascade to one collection account. */
  lemma ReceiptRouting(fileName: string, rawText: string)
    requires Mentions(ToLower(rawText), RECEIPT_KEYWORDS)
    ensures var r := ClassifyAndRoute(fileName, rawText);
      var t := ToLower(rawText);
      && (Mentions(t, FUEL_KEYWORDS) ==>
            r.supplierId == "VC_FUEL" && r.supplierName == SUPPLIERS[0].name && r.confidence == 0.95)
      && (!Mentions(t, FUEL_KEYWORDS) && Mentions(t, HORECA_KEYWORDS) ==>
            r.supplierId == "VC_HORECA" && r.supplierName == SUPPLIERS[2].name && r.confidence == 0.92)
      && (!Mentions(t, FUEL_KEYWORDS) && !Mentions(t, HORECA_KEYWORDS) && Mentions(t, SUPERMARKET_KEYWORDS) ==>
            r.supplierId == "VC_SUPER" && r.supplierName == SUPPLIERS[1].name && r.confidence == 0.98)
      && (!Mentions(t, FUEL_KEYWORDS) && !Mentions(t, HORECA_KEYWORDS) && !Mentions(t, SUPERMARKET_KEYWORDS) ==>
            r.supplierId == "VC_OTHER" && r.supplierName == SUPPLIERS[3].name && r.confidence == 0.85)
  {
    CollectionAccountOf(ReceiptCategory(ToLower(rawText)));
    SupplierList();
  }

  /** The invoice branch of the router in terms of the first name match. */
  lemma InvoiceRoute(lowerText: string)
    ensures forall k :: FirstNameMatch(lowerText, k) && SUPPLIERS[k].id != FALLBACK_ID ==>
      Route(lowerText, false) == (Some(SUPPLIERS[k]), 0.99)
    ensures (forall k :: FirstNameMatch(lowerText, k) ==> SUPPLIERS[k].id == FALLBACK_ID) ==>
      Route(lowerText, false) == (Fallback(), 0.65)
  {
    forall k | FirstNameMatch(lowerText, k)
      ensures InvoiceMatch(lowerText) == Some(k)
    {
      FirstNameMatchUnique(lowerText, k);
    }
  }

  /** There is at most one first match, and the search finds it. */
  lemma FirstNameMatchUnique(lowerText: string, k: int)
    requires FirstNameMatch(lowerText, k)
    ensures InvoiceMatch(lowerText) == Some(k)
  {
  }

  /**
   * An invoice goes to the first supplier, in list order, whose lowercased
   * name occurs in the lowercased text, with confidence 0.99, unless that
   * supplier is the fallback; otherwise it goes to the fallback with 0.65.
   */
  lemma InvoiceRouting(fileName: string, rawText: string)
    requires !Mentions(ToLower(rawText), RECEIPT_KEYWORDS)
    ensures var r := ClassifyAndRoute(fileName, rawText);
      var t := ToLower(rawText);
      && (forall k :: FirstNameMatch(t, k) && SUPPLIERS[k].id != FALLBACK_ID ==>
            r.supplierId == SUPPLIERS[k].id && r.supplierName == SUPPLIERS[k].name && r.confidence == 0.99)
      && ((forall k :: FirstNameMatch(t, k) ==> SUPPLIERS[k].id == FALLBACK_ID) ==>
            r.supplierId == FALLBACK_ID && r.supplierName == SUPPLIERS[6].name && r.confidence == 0.65)
  {
    InvoiceRoute(ToLower(rawText));
    FallbackIsLast();
  }

  /** The classification depends on the extracted text only. */
  lemma FileNameIrrelevant(fileName1: string, fileName2: string, rawText: string)
    ensures ClassifyAndRoute(fileName1, rawText) == ClassifyAndRoute(fileName2, rawText)
  {
  }
}
