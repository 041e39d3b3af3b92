/**
 * The records the engine works on (types.ts). Amounts are integer cents and
 * timestamps are opaque integers supplied by the caller.
 */
module Types {

  datatype Option<T> = None | Some(value: T)

  datatype DocType = Invoice | Receipt | Unknown

  datatype Status = Processing | Ready | Review | Posted

  /** The category of a collection account (verzamelcrediteur). */
  datatype Category = Fuel | Horeca | Supermarket | Other

  datatype Supplier = Supplier(
    id: string,
    name: string,
    isCollectionAccount: bool,
    category: Option<Category>,
    defaultGl: Option<string>)

  datatype LineItem = LineItem(
    id: string,
    description: string,
    glAccount: string,
    vatCode: string,
    amount: int,
    isSpread: Option<bool>,
    originalDescription: Option<string>)

  datatype EntryKind = Info | Warning | Fix | Success

  /** The probable cause the engine names for a large discrepancy. */
  datatype Hypothesis = VatExclusiveLines | MissingLines | DiscountApplied

  /** The headline of an audit entry; the differences are in cents. */
  datatype Message = ValidationPassed | RoundingDifference(diff: int) | LargeDifference(diff: int)

  /** The optional details of an audit entry; `lineNumber` is 1-based. */
  datatype Details =
    | NoDetails
    | Correction(lineNumber: nat, oldAmount: int, newAmount: int)
    | Failure(hypothesis: Hypothesis)

  datatype AuditEntry = AuditEntry(timestamp: int, kind: EntryKind, message: Message, details: Details)

  datatype Document = Document(
    id: string,
    fileName: string,
    docType: DocType,
    status: Status,
    confidence: real,
    supplierId: string,
    supplierName: string,
    invoiceDate: string,
    refNumber: string,
    totalAmount: int,
    lines: seq<LineItem>,
    auditLog: seq<AuditEntry>,
    validationErrors: seq<string>)
}
