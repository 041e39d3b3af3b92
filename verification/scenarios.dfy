/**
 * The engine on the documents of the ingest screen
 * (components/IngestScreen.tsx), on invoice texts that name a collection
 * account, and on three further reconciliation cases: a rounding gap, missing
 * lines and a discount. Long literals are taken apart into short pieces so that the
 * substring facts can be established piece by piece.
 */
module Scenarios {

  import opened Types
  import opened Text
  import opened MockData
  import opened Classifier
  import opened Subject
  import opened Spreading
  import opened Reconciler
  import opened Cockpit

  // Classification of the two sample documents.

  const FUEL_RECEIPT_TEXT: string := "Shell Station Den Haag Fuel Receipt"

  lemma FuelReceiptIsReceipt()
    ensures Mentions(ToLower(FUEL_RECEIPT_TEXT), RECEIPT_KEYWORDS)
  {
    assert FUEL_RECEIPT_TEXT == "Shell Station Den Haag Fuel " + "Receipt";
    ToLowerAppend("Shell Station Den Haag Fuel ", "Receipt");
    assert ToLower("Receipt") == "receipt";
    OccursSelf("receipt");
    OccursInRight(ToLower("Shell Station Den Haag Fuel "), "receipt", "receipt");
    assert RECEIPT_KEYWORDS[1] == "receipt";
  }

  lemma FuelReceiptMentionsFuel()
    ensures Mentions(ToLower(FUEL_RECEIPT_TEXT), FUEL_KEYWORDS)
  {
    assert FUEL_RECEIPT_TEXT == "Shell" + " Station Den Haag Fuel Receipt";
    ToLowerAppend("Shell", " Station Den Haag Fuel Receipt");
    assert ToLower("Shell") == "shell";
    OccursSelf("shell");
    OccursInLeft("shell", ToLower(" Station Den Haag Fuel Receipt"), "shell");
    assert FUEL_KEYWORDS[0] == "shell";
  }

  /** The fuel receipt goes to the fuel collection account with confidence 0.95. */
  lemma FuelReceiptScenario()
    ensures ClassifyAndRoute("receipt_shell.pdf", FUEL_RECEIPT_TEXT)
      == Classification(Receipt, "VC_FUEL", "xxxxx verzamelcrediteur tankbonnen", 0.95)
  {
    FuelReceiptIsReceipt();
    FuelReceiptMentionsFuel();
    CollectionAccountAt(Fuel, 0);
  }

  const INVOICE_TEXT: string := "KPN Zakelijk Invoice #2993 Internet Services"

  const INVOICE_LOWER: string := "kpn zakelijk invoice #2993 internet services"

  lemma InvoiceTextLowered()
    ensures ToLower(INVOICE_TEXT) == INVOICE_LOWER
  {
    InvoiceTextHalves();
    InvoiceLowerHalves();
    ToLowerAppend("KPN Zakelijk ", "Invoice #2993 Internet Services");
    LowerInvoiceHead();
    LowerInvoiceTail();
  }

  lemma InvoiceTextHalves()
    ensures INVOICE_TEXT == "KPN Zakelijk " + "Invoice #2993 Internet Services"
  {
  }

  lemma InvoiceLowerHalves()
    ensures INVOICE_LOWER == "kpn zakelijk " + "invoice #2993 internet services"
  {
  }

  lemma LowerInvoiceHead()
    ensures ToLower("KPN Zakelijk ") == "kpn zakelijk "
  {
  }

  lemma LowerInvoiceTail()
    ensures ToLower("Invoice #2993 Internet Services") == "invoice #2993 internet services"
  {
  }

  /** The lowercased invoice text, taken apart at its spaces. */
  lemma InvoiceFirstWord()
    ensures INVOICE_LOWER == "kpn zakelijk" + " " + "invoice #2993 internet services"
  {
  }

  lemma InvoiceLaterWords()
    ensures "invoice #2993 internet services" == "invoice #2993" + " " + "internet services"
    ensures "internet services" == "internet" + " " + "services"
  {
  }

  lemma InvoiceHasNoReceiptWord()
    ensures !Occurs(INVOICE_LOWER, "receipt")
  {
    InvoiceFirstWord();
    InvoiceLaterWords();
    // no word of the text holds all the letters of "receipt"
    NotOccursWithoutChar("internet", "receipt", 'c');
    NotOccursWithoutChar("services", "receipt", 'p');
    NotOccursAcrossSeparator("internet", ' ', "services", "receipt");
    NotOccursWithoutChar("invoice #2993", "receipt", 'r');
    NotOccursAcrossSeparator("invoice #2993", ' ', "internet services", "receipt");
    NotOccursWithoutChar("kpn zakelijk", "receipt", 'r');
    NotOccursAcrossSeparator("kpn zakelijk", ' ', "invoice #2993 internet services", "receipt");
  }

  lemma InvoiceHasNoKassa()
    ensures !Occurs(INVOICE_LOWER, "kassa")
  {
    InvoiceFirstWord();
    // the first word has no 's', the rest no 'k'
    NotOccursWithoutChar("kpn zakelijk", "kassa", 's');
    NotOccursWithoutChar("invoice #2993 internet services", "kassa", 'k');
    NotOccursAcrossSeparator("kpn zakelijk", ' ', "invoice #2993 internet services", "kassa");
  }

  lemma InvoiceIsNoReceipt()
    ensures !Mentions(ToLower(INVOICE_TEXT), RECEIPT_KEYWORDS)
  {
    InvoiceTextLowered();
    NotOccursWithoutChar(INVOICE_LOWER, "bon", 'b');
    InvoiceHasNoReceiptWord();
    InvoiceHasNoKassa();
    assert RECEIPT_KEYWORDS == ["bon", "receipt", "kassa"];
  }

  /** A supplier whose name holds an 'x' is not named in the invoice text. */
  lemma NameWithXNotInInvoice(name: string)
    requires 'x' in name
    ensures !Occurs(INVOICE_LOWER, ToLower(name))
  {
    LowerKeepsChar(name, 'x');
    NotOccursWithoutChar(INVOICE_LOWER, ToLower(name), 'x');
  }

  lemma KpnNameLowered(name: string)
    requires name == "KPN Zakelijk"
    ensures ToLower(name) == "kpn zakelijk"
  {
  }

  lemma InvoiceStartsWithKpn()
    ensures INVOICE_LOWER == "kpn zakelijk" + " invoice #2993 internet services"
  {
  }

  /** The invoice text names KPN Zakelijk (position 4). */
  lemma InvoiceNamesKpn()
    ensures Occurs(INVOICE_LOWER, ToLower(SUPPLIERS[4].name))
  {
    var name := SUPPLIERS[4].name;
    assert name == "KPN Zakelijk";
    KpnNameLowered(name);
    InvoiceStartsWithKpn();
    OccursSelf("kpn zakelijk");
    OccursInLeft("kpn zakelijk", " invoice #2993 internet services", "kpn zakelijk");
  }

  /** The first supplier the invoice text names is KPN (position 4). */
  lemma InvoiceNamesKpnFirst()
    ensures FirstNameMatch(INVOICE_LOWER, 4)
  {
    var t := INVOICE_LOWER;
    assert !Occurs(t, ToLower(SUPPLIERS[0].name)) by { NameWithXNotInInvoice(SUPPLIERS[0].name); }
    assert !Occurs(t, ToLower(SUPPLIERS[1].name)) by { NameWithXNotInInvoice(SUPPLIERS[1].name); }
    assert !Occurs(t, ToLower(SUPPLIERS[2].name)) by { NameWithXNotInInvoice(SUPPLIERS[2].name); }
    assert !Occurs(t, ToLower(SUPPLIERS[3].name)) by { NameWithXNotInInvoice(SUPPLIERS[3].name); }
    InvoiceNamesKpn();
  }

  /** The KPN invoice goes to supplier SUP005 with confidence 0.99. */
  lemma KpnInvoiceScenario()
    ensures ClassifyAndRoute("invoice_kpn.pdf", INVOICE_TEXT)
      == Classification(Invoice, "SUP005", "KPN Zakelijk", 0.99)
  {
    var r := ClassifyAndRoute("invoice_kpn.pdf", INVOICE_TEXT);
    InvoiceIsNoReceipt();
    assert r.docType == Invoice;
    InvoiceTextLowered();
    InvoiceNamesKpnFirst();
    InvoiceRouting("invoice_kpn.pdf", INVOICE_TEXT);
    assert r.supplierId == "SUP005" && r.supplierName == "KPN Zakelijk" && r.confidence == 0.99;
  }

  // The receipt alias of each collection account.

  /** The alias the subject line gives each collection account. */
  function ExpectedAlias(c: Category): string
  {
    match c
    case Fuel => "Shell"
    case Supermarket => "AH"
    case Horeca => "Lunch"
    case Other => "Div"
  }

  lemma FuelAccountAlias(name: string)
    requires name == "xxxxx verzamelcrediteur tankbonnen"
    ensures Alias(name) == "Shell"
  {
    assert name == "xxxxx verzamelcrediteur " + ("tank" + "bonnen");
    OccursSelf("tank");
    OccursInLeft("tank", "bonnen", "tank");
    OccursInRight("xxxxx verzamelcrediteur ", "tank" + "bonnen", "tank");
    assert !Occurs(name, "supermarkt") by { NotOccursWithoutChar(name, "supermarkt", 'p'); }
    assert !Occurs(name, "horeca") by { NotOccursWithoutChar(name, "horeca", 'h'); }
  }

  lemma SupermarketAccountAlias(name: string)
    requires name == "xxxxx verzamelcrediteur supermarktbonnen"
    ensures Alias(name) == "AH"
  {
    assert name == "xxxxx verzamelcrediteur " + ("supermarkt" + "bonnen");
    OccursSelf("supermarkt");
    OccursInLeft("supermarkt", "bonnen", "supermarkt");
    OccursInRight("xxxxx verzamelcrediteur ", "supermarkt" + "bonnen", "supermarkt");
    assert !Occurs(name, "horeca") by { NotOccursWithoutChar(name, "horeca", 'h'); }
  }

  lemma HorecaAccountAlias(name: string)
    requires name == "xxxxx verzamelcrediteur horeca"
    ensures Alias(name) == "Lunch"
  {
    assert name == "xxxxx verzamelcrediteur " + "horeca";
    OccursSelf("horeca");
    OccursInRight("xxxxx verzamelcrediteur ", "horeca", "horeca");
  }

  lemma OtherAccountAlias(name: string)
    requires name == "xxxxx verzamelcrediteur overige bonnen"
    ensures Alias(name) == "Div"
  {
    assert !Occurs(name, "tank") by { NotOccursWithoutChar(name, "tank", 'k'); }
    assert !Occurs(name, "supermarkt") by { NotOccursWithoutChar(name, "supermarkt", 'p'); }
    assert !Occurs(name, "horeca") by { NotOccursWithoutChar(name, "horeca", 'h'); }
  }

  /** The alias of each of the four collection accounts, by position in the list. */
  lemma AccountAlias(k: nat, name: string)
    requires k < 4 && name == SUPPLIERS[k].name
    ensures Alias(name) == ["Shell", "AH", "Lunch", "Div"][k]
  {
    if k == 0 {
      FuelAccountAlias(name);
    } else if k == 1 {
      SupermarketAccountAlias(name);
    } else if k == 2 {
      HorecaAccountAlias(name);
    } else {
      OtherAccountAlias(name);
    }
  }

  /** Each collection account's name yields its brand alias: Shell, AH, Lunch or Div. */
  lemma CollectionAccountAliases(c: Category)
    ensures CollectionAccount(c).Some? && Alias(CollectionAccount(c).value.name) == ExpectedAlias(c)
  {
    var k := CollectionIndex(c);
    assert Alias(SUPPLIERS[k].name) == ExpectedAlias(c) by {
      AccountAlias(k, SUPPLIERS[k].name);
      assert ["Shell", "AH", "Lunch", "Div"][k] == ExpectedAlias(c);
    }
    CollectionAccountOf(c);
  }

  /**
   * Routing a receipt and then composing its subject recovers the brand alias
   * of the category the receipt cascade chose.
   */
  lemma RoutedReceiptAlias(fileName: string, rawText: string)
    requires Mentions(ToLower(rawText), RECEIPT_KEYWORDS)
    ensures Alias(ClassifyAndRoute(fileName, rawText).supplierName) == ExpectedAlias(ReceiptCategory(ToLower(rawText)))
  {
    var c := ReceiptCategory(ToLower(rawText));
    var k: nat := match c case Fuel => 0 case Supermarket => 1 case Horeca => 2 case Other => 3;
    var name := ClassifyAndRoute(fileName, rawText).supplierName;
    assert name == SUPPLIERS[k].name by {
      ReceiptRouting(fileName, rawText);
    }
    AccountAlias(k, name);
  }

  lemma FuelAccountSubject(name: string)
    requires name == "xxxxx verzamelcrediteur tankbonnen"
    ensures HeaderSubject(Receipt, name, "Brandstof V-Power") == "Shell: Brandstof V-Power"
  {
    FuelAccountAlias(name);
  }

  /** The first line of the fuel receipt gets the subject "Shell: Brandstof V-Power". */
  lemma FuelReceiptSubjectScenario()
    ensures HeaderSubject(Receipt, ClassifyAndRoute("receipt_shell.pdf", FUEL_RECEIPT_TEXT).supplierName, "Brandstof V-Power")
      == "Shell: Brandstof V-Power"
  {
    FuelReceiptScenario();
    FuelAccountSubject(ClassifyAndRoute("receipt_shell.pdf", FUEL_RECEIPT_TEXT).supplierName);
  }

  // Invoice texts that name a collection account.

  /** A text that names a supplier whose name holds "bon" is a receipt. */
  lemma NameWithBonMakesReceipt(fileName: string, rawText: string, name: string)
    requires Occurs(name, "bon") && Occurs(ToLower(rawText), ToLower(name))
    ensures ClassifyAndRoute(fileName, rawText).docType == Receipt
  {
    LowerKeepsOccurrence(name, "bon");
    assert ToLower("bon") == "bon";
    OccursTransitive(ToLower(rawText), ToLower(name), "bon");
    assert RECEIPT_KEYWORDS[0] == "bon";
  }

  /** A name ending in "bonnen" holds "bon". */
  lemma BonnenNameHasBon(prefix: string, name: string)
    requires name == prefix + "bonnen"
    ensures Occurs(name, "bon")
  {
    assert name == prefix + ("bon" + "nen");
    OccursSelf("bon");
    OccursInLeft("bon", "nen", "bon");
    OccursInRight(prefix, "bon" + "nen", "bon");
  }

  /**
   * The names of the fuel, supermarket and other collection accounts hold
   * "bon", so a text naming one of them is always classified as a receipt
   * and never reaches the invoice name match.
   */
  lemma BonAccountNamesMakeReceipts(fileName: string, rawText: string, k: nat)
    requires k < 4 && k != 2
    requires Occurs(ToLower(rawText), ToLower(SUPPLIERS[k].name))
    ensures ClassifyAndRoute(fileName, rawText).docType == Receipt
  {
    var name := SUPPLIERS[k].name;
    if k == 0 {
      BonnenNameHasBon("xxxxx verzamelcrediteur tank", name);
    } else if k == 1 {
      BonnenNameHasBon("xxxxx verzamelcrediteur supermarkt", name);
    } else {
      BonnenNameHasBon("xxxxx verzamelcrediteur overige ", name);
    }
    NameWithBonMakesReceipt(fileName, rawText, name);
  }

  lemma HorecaNameLowered(text: string)
    requires text == "xxxxx verzamelcrediteur horeca"
    ensures ToLower(text) == text
  {
  }

  lemma HorecaNameIsNoReceipt(text: string)
    requires text == "xxxxx verzamelcrediteur horeca"
    ensures !Mentions(text, RECEIPT_KEYWORDS)
  {
    NotOccursWithoutChar(text, "bon", 'b');
    NotOccursWithoutChar(text, "receipt", 'p');
    NotOccursWithoutChar(text, "kassa", 'k');
    assert RECEIPT_KEYWORDS == ["bon", "receipt", "kassa"];
  }

  /** The horeca account is the first supplier the text names: the two names before it are longer. */
  lemma HorecaNameFirstMatch(text: string)
    requires text == "xxxxx verzamelcrediteur horeca"
    ensures FirstNameMatch(text, 2)
  {
    assert |SUPPLIERS[0].name| > |text| && |SUPPLIERS[1].name| > |text|;
    NotOccursLonger(text, ToLower(SUPPLIERS[0].name));
    NotOccursLonger(text, ToLower(SUPPLIERS[1].name));
    assert SUPPLIERS[2].name == text;
    HorecaNameLowered(text);
    OccursSelf(text);
  }

  /**
   * The horeca account's name holds none of the receipt keywords, so a text
   * made of that name alone is an invoice, matched by name to the horeca
   * collection account with the invoice confidence 0.99.
   */
  lemma HorecaNameInvoiceScenario(fileName: string, text: string)
    requires text == "xxxxx verzamelcrediteur horeca"
    ensures ClassifyAndRoute(fileName, text) == Classification(Invoice, "VC_HORECA", text, 0.99)
  {
    assert !Mentions(ToLower(text), RECEIPT_KEYWORDS) && FirstNameMatch(ToLower(text), 2) by {
      HorecaNameLowered(text);
      HorecaNameIsNoReceipt(text);
      HorecaNameFirstMatch(text);
    }
    assert SUPPLIERS[2].id == "VC_HORECA" && SUPPLIERS[2].name == text;
    NamedInvoiceRouting(fileName, text, 2);
  }

  /** An invoice whose first name match is a supplier other than the fallback is booked on it. */
  lemma NamedInvoiceRouting(fileName: string, rawText: string, k: int)
    requires !Mentions(ToLower(rawText), RECEIPT_KEYWORDS)
    requires FirstNameMatch(ToLower(rawText), k) && SUPPLIERS[k].id != FALLBACK_ID
    ensures ClassifyAndRoute(fileName, rawText) == Classification(Invoice, SUPPLIERS[k].id, SUPPLIERS[k].name, 0.99)
  {
    InvoiceRouting(fileName, rawText);
  }

  // Cost spreading on the sample line descriptions.

  /** The invoice line "Internet Services Q4 2023" is a cost-spreading candidate. */
  lemma QuarterLineIsSpread(description: string)
    requires description == "Internet Services Q4 2023"
    ensures DetectCostSpreading(description)
  {
    assert description == "Internet Services Q4 " + "2023";
    OccursSelf("2023");
    OccursInRight("Internet Services Q4 ", "2023", "2023");
    assert YEAR_TOKENS[0] == "2023";
    assert MentionsYear(description);

    assert ToLower(description) == "internet services " + ("q4" + " 2023");
    OccursSelf("q4");
    OccursInLeft("q4", " 2023", "q4");
    OccursInRight("internet services ", "q4" + " 2023", "q4");
    assert PERIOD_TOKENS[15] == "q4";
  }

  /** The receipt lines carry no year, so neither is a cost-spreading candidate. */
  lemma ReceiptLinesAreNotSpread(description: string)
    requires description == "Shell: Brandstof V-Power" || description == "Koffie Grande"
    ensures !DetectCostSpreading(description)
  {
    NoYearWithoutTwo(description);
  }

  // Reconciliation of the sample documents, amounts in cents.

  function Line(id: string, amount: int): LineItem
  {
    LineItem(id, "", "4000", "VHC", amount, None, None)
  }

  function SampleDocument(total: int, lines: seq<LineItem>): Document
  {
    Document("DOC", "scan.pdf", Invoice, Review, 0.99, "SUP005", "KPN Zakelijk", "2023-10-20", "", total, lines, [], [])
  }

  /** The fuel receipt (45.00 over 37.19 and 7.81) balances: SUCCESS, nothing changes. */
  lemma BalancedReceiptScenario(now: int)
    ensures var doc := SampleDocument(4500, [Line("L1", 3719), Line("L2", 781)]);
      var r := ValidateAndHeal(doc, now);
      r.isValid && r.healedLines == doc.lines && r.log == [AuditEntry(now, Success, ValidationPassed, NoDetails)]
  {
  }

  /**
   * The KPN invoice (121.00 over one line of 100.00) fails with the VAT
   * hypothesis, although its total exceeds its lines.
   */
  lemma VatExclusiveScenario(now: int)
    ensures var doc := SampleDocument(12100, [Line("L1", 10000)]);
      var r := ValidateAndHeal(doc, now);
      && !r.isValid && r.healedLines == doc.lines
      && doc.totalAmount > Sum(doc.lines)
      && r.log == [AuditEntry(now, Warning, LargeDifference(2100), Failure(VatExclusiveLines))]
  {
  }

  /** A 3-cent gap (100.00 over 60.00 and 39.97) is moved onto line #1. */
  lemma RoundingFixScenario(now: int)
    ensures var doc := SampleDocument(10000, [Line("L1", 6000), Line("L2", 3997)]);
      var r := ValidateAndHeal(doc, now);
      && r.isValid
      && r.healedLines == [Line("L1", 6003), Line("L2", 3997)]
      && r.log == [AuditEntry(now, Fix, RoundingDifference(3), Correction(1, 6000, 6003))]
      && IsBalanced(RunValidation(doc, now))
  {
    var doc := SampleDocument(10000, [Line("L1", 6000), Line("L2", 3997)]);
    FixTouchesOnlyLargestLine(doc, now, 0);
  }

  /** A total 50.00 above the lines suggests missing lines. */
  lemma MissingLinesScenario(now: int)
    ensures var doc := SampleDocument(10000, [Line("L1", 5000)]);
      var r := ValidateAndHeal(doc, now);
      !r.isValid && r.healedLines == doc.lines && r.log[0].details == Failure(MissingLines)
  {
  }

  /** A total below the lines suggests a discount. */
  lemma DiscountScenario(now: int)
    ensures var doc := SampleDocument(9000, [Line("L1", 10000)]);
      var r := ValidateAndHeal(doc, now);
      !r.isValid && r.healedLines == doc.lines && r.log[0].details == Failure(DiscountApplied)
  {
  }
}
