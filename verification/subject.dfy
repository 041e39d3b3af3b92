/**
 * The two 45-character policies of the engine (services/aiEngine.ts):
 * `Shorten` (shortenDescription) cuts to 42 characters and appends "...";
 * `HeaderSubject` (generateHeaderSubject) composes a subject line and cuts
 * it hard at 45 characters, without a marker.
 */
module Subject {

  import opened Types
  import opened Text

  /** The longest description the ledger accepts. */
  const MAX_LENGTH: nat := 45

  const ELLIPSIS: string := "..."

  /** Limits a line description to 45 characters, marking a cut with "...". */
  function Shorten(text: string): (r: string)
    ensures |r| <= MAX_LENGTH
    ensures |text| <= MAX_LENGTH ==> r == text
    ensures |text| > MAX_LENGTH ==> |r| == MAX_LENGTH && r[..42] == text[..42] && r[42..] == ELLIPSIS
  {
    if |text| <= MAX_LENGTH then text else text[..42] + ELLIPSIS
  }

  /** Shortening a shortened description changes nothing. */
  lemma ShortenIdempotent(text: string)
    ensures Shorten(Shorten(text)) == Shorten(text)
  {
  }

  /**
   * The short supplier alias of a receipt subject. The three case-sensitive
   * tests on the collection-account name run in sequence, so the last one
   * that holds decides: "horeca" over "supermarkt" over "tank".
   */
  function Alias(supplierName: string): (r: string)
    ensures r == "Lunch" <==> Occurs(supplierName, "horeca")
    ensures r == "AH" <==> !Occurs(supplierName, "horeca") && Occurs(supplierName, "supermarkt")
    ensures r == "Shell" <==>
      !Occurs(supplierName, "horeca") && !Occurs(supplierName, "supermarkt") && Occurs(supplierName, "tank")
    ensures r == "Div" <==>
      !Occurs(supplierName, "horeca") && !Occurs(supplierName, "supermarkt") && !Occurs(supplierName, "tank")
  {
    var alias := "Div";
    var alias := if Contains(supplierName, "tank") then "Shell" else alias;
    var alias := if Contains(supplierName, "supermarkt") then "AH" else alias;
    var alias := if Contains(supplierName, "horeca") then "Lunch" else alias;
    alias
  }

  /** The subject before the cut: "alias: description" for a receipt, the description otherwise. */
  function Compose(docType: DocType, supplierName: string, rawDesc: string): (r: string)
    ensures |rawDesc| <= |r| <= |rawDesc| + 7
    ensures r[|r| - |rawDesc|..] == rawDesc
    ensures docType == Receipt ==> r[..|r| - |rawDesc|] == Alias(supplierName) + ": "
    ensures docType != Receipt ==> r == rawDesc
  {
    if docType == Receipt then Alias(supplierName) + ": " + rawDesc else rawDesc
  }

  /** Cuts a string to its first 45 characters. */
  function HardCut(s: string): (r: string)
    ensures r <= s
    ensures |r| == if |s| <= MAX_LENGTH then |s| else MAX_LENGTH
  {
    if |s| > MAX_LENGTH then s[..MAX_LENGTH] else s
  }

  /**
   * The subject line of a document: never longer than 45 characters, always
   * a prefix of the composed subject, and the whole of it when it fits.
   */
  function HeaderSubject(docType: DocType, supplierName: string, rawDesc: string): (r: string)
    ensures |r| <= MAX_LENGTH
    ensures r <= Compose(docType, supplierName, rawDesc)
    ensures |Compose(docType, supplierName, rawDesc)| <= MAX_LENGTH ==> r == Compose(docType, supplierName, rawDesc)
    ensures |Compose(docType, supplierName, rawDesc)| > MAX_LENGTH ==> |r| == MAX_LENGTH
    ensures docType == Receipt ==> r <= Alias(supplierName) + ": " + rawDesc
    ensures docType != Receipt ==> r <= rawDesc && (|rawDesc| <= MAX_LENGTH ==> r == rawDesc)
  {
    HardCut(Compose(docType, supplierName, rawDesc))
  }

  /** A receipt subject begins with the alias and ": ", once there is room for a description. */
  lemma ReceiptSubjectStartsWithAlias(supplierName: string, rawDesc: string)
    ensures var r := HeaderSubject(Receipt, supplierName, rawDesc);
      var head := Alias(supplierName) + ": ";
      head <= r && |r| == |head| + (if |head + rawDesc| <= MAX_LENGTH then |rawDesc| else MAX_LENGTH - |head|)
  {
    var head := Alias(supplierName) + ": ";
    assert |head| <= 7;
    assert head + rawDesc == Compose(Receipt, supplierName, rawDesc);
  }

  /** An invoice subject that is already at most 45 characters is its own subject. */
  lemma InvoiceSubjectIdempotent(supplierName: string, rawDesc: string)
    ensures var r := HeaderSubject(Invoice, supplierName, rawDesc);
      HeaderSubject(Invoice, supplierName, r) == r
  {
  }

  /**
   * The two policies differ on long input: both keep 45 characters and agree
   * on the first 42, but the subject ends with the description's own
   * characters 42..45 where the shortener writes "...".
   */
  lemma TruncationPoliciesDiffer(supplierName: string, rawDesc: string)
    requires |rawDesc| > MAX_LENGTH
    ensures var subject := HeaderSubject(Invoice, supplierName, rawDesc);
      var short := Shorten(rawDesc);
      && |subject| == |short| == MAX_LENGTH
      && subject[..42] == short[..42]
      && subject[42..] == rawDesc[42..45]
      && (subject == short <==> rawDesc[42..45] == ELLIPSIS)
  {
    var subject := HeaderSubject(Invoice, supplierName, rawDesc);
    var short := Shorten(rawDesc);
    assert subject == rawDesc[..45];
    assert subject == subject[..42] + subject[42..];
    assert short == short[..42] + short[42..];
  }
}
