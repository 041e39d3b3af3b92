# Invoice automation engine, modelled in Dafny

This project models the rule-based "AI engine" of an invoice-automation
prototype for Exact Online (`services/aiEngine.ts`). It also models the supplier
reference list it routes against (`mockData.ts`) and the way the review screen
applies the engine's results (`components/DetailCockpit.tsx`). The engine has
five pure functions:

- **classifyAndRoute.** Decides whether extracted text is a receipt or an
  invoice. A receipt goes to one of four collection accounts, through an
  ordered keyword cascade, with a fixed confidence. An invoice goes to the
  first supplier whose name the text mentions, or to the fallback supplier
  `SUP999`.
- **shortenDescription.** Limits a line description to 45 characters by
  cutting to 42 and appending `...`.
- **generateHeaderSubject.** Builds a subject line (`Alias: description` for
  receipts) and cuts it hard at 45 characters.
- **detectCostSpreading.** True when a description names a year 2023–2029
  and, ignoring case, a month, quarter or year word.
- **validateAndHeal.** Reconciles the line amounts with the document total:
  - equal: SUCCESS;
  - 1 to 5 cents apart: FIX, where the first largest line absorbs the difference;
  - otherwise: WARNING, with a probable cause (VAT-exclusive lines, missing
    lines, or a discount).

Amounts are integer cents. Under that abstraction, the source's `< 0.01` test
becomes `diff == 0`, and its `<= 0.05` test becomes `|diff| <= 5`. Its VAT test
`|sum * 1.21 - total| < 0.10` becomes `|121 * sum - 100 * total| < 1000`.
Confidences are exact `real` literals.

Modules, in dependency order:
- `Types`: the records of `types.ts`.
- `Find`: first-match search, as in `Array.prototype.find`.
- `Text`: ASCII lowercasing and substring occurrence.
- `MockData`: the supplier list, in source order.
- `Classifier`, `Subject`, `Spreading`, `Reconciler`: the engine.
- `Cockpit`: the review screen's use of the engine.
- `Scenarios`: the fixtures of `components/IngestScreen.tsx` and the worked
  reconciliation cases.

One consequence of the code as written: the invoice branch only excludes
`SUP999` from a name match, so a collection account can be matched by name.
Only `VC_HORECA` is reachable that way. The names of the other three
collection accounts contain "bon" (tank**bon**nen, supermarkt**bon**nen,
overige **bon**nen), so a text naming one of them is always a receipt
(`Scenarios.BonAccountNamesMakeReceipts`). The horeca account's name contains
no receipt keyword, and a text consisting of it is an invoice on `VC_HORECA`
with confidence 0.99 (`Scenarios.HorecaNameInvoiceScenario`).

## Model

| member | source | states |
|---|---|---|
| MockData.SUPPLIERS | mockData.ts:3-16 | The reference list, entry by entry and in source order; its shape is stated by `MockData.SupplierList`. |
| MockData.SupplierList | mockData.ts:3-16 | The list has seven suppliers with distinct ids. The first four are exactly the collection accounts, one per category, and only they carry a category. The last is the fallback SUP999. |
| MockData.CollectionAccount | services/aiEngine.ts:17-29 | `SUPPLIERS.find(s => s.category === c)`: when it finds a supplier, that supplier is the first in the list with category c; when it finds none, no supplier has that category. |
| MockData.Fallback | services/aiEngine.ts:10 | `SUPPLIERS.find(s => s.id === 'SUP999')`: when it finds a supplier, that supplier is in the list and has the id SUP999; when it finds none, no supplier has that id. |
| Find.FindFirst | services/aiEngine.ts:35 | The search returns the first position, in list order, whose element satisfies the test, or nothing when no element does; it is the basis of every `SUPPLIERS.find` call. |
| Text.ToLower | services/aiEngine.ts:6 | Lowercasing keeps the length and maps each character independently: ASCII capitals to small letters, every other character unchanged. |
| Text.ToLowerIdempotent | services/aiEngine.ts:6 | Lowering an already lowered text changes nothing, so the lowered keywords and names compare as written. |
| Text.Contains | services/aiEngine.ts:7 | The substring test `includes` holds exactly when the pattern occurs at some position of the text. |
| Text.ContainsAny | services/aiEngine.ts:7 | A chain of `includes` joined by `\|\|` holds exactly when one of the keywords occurs in the text. |
| MockData.CollectionAccountOf | mockData.ts:3-16 | For every category, the first supplier with that category exists, is a collection account, has that category, and has the id VC_FUEL, VC_SUPER, VC_HORECA or VC_OTHER. |
| MockData.CollectionAccountAt | mockData.ts:3-16 | The category search returns the supplier at the first position that carries the category. |
| MockData.SupplierFieldsNonEmpty | services/aiEngine.ts:52-53 | Every supplier has a non-empty id and name, so the `\|\| 'SUP999'` and `\|\| 'Unknown'` fallbacks never apply to a matched supplier. |
| MockData.FallbackIsLast | mockData.ts:15 | The search for the fallback id finds the last entry of the list, whose id is SUP999. |
| Classifier.ClassifyAndRoute | services/aiEngine.ts:5-56 | The document is a RECEIPT exactly when its lowercased text contains "bon", "receipt" or "kassa", and an INVOICE otherwise. The supplier id and name are always the id and name of one entry of the reference list, a receipt's entry is always a collection account, and the confidence lies in [0, 1]. |
| Classifier.ReceiptCategory | services/aiEngine.ts:16-32 | The receipt cascade picks fuel exactly when a fuel keyword occurs, horeca exactly when no fuel keyword and some horeca keyword occur, and supermarket exactly when neither of those and some supermarket keyword occur. |
| Classifier.ReceiptRouting | services/aiEngine.ts:14-32 | A receipt is routed in cascade order, and gets the id and name of the chosen collection account: fuel to VC_FUEL with 0.95, else horeca to VC_HORECA with 0.92, else supermarket to VC_SUPER with 0.98, else VC_OTHER with 0.85. |
| Classifier.Route | services/aiEngine.ts:14-43 | The router always yields a supplier from the list and a confidence in [0, 1]. A receipt's supplier is the collection account of the cascade's category. An invoice gets 0.99 exactly when its supplier is not SUP999, and then that supplier is the first name match. |
| Classifier.InvoiceMatch | services/aiEngine.ts:35 | The name search yields the first supplier, in list order, whose lowercased name occurs in the lowercased text, or none when no name occurs. |
| Classifier.InvoiceRoute | services/aiEngine.ts:33-43 | The invoice branch picks the first name match with 0.99 unless it is SUP999, and otherwise keeps the default SUP999 with 0.65. |
| Classifier.FirstNameMatchUnique | services/aiEngine.ts:35 | When position k is the first supplier whose name occurs, the search returns exactly k. |
| Classifier.InvoiceRouting | services/aiEngine.ts:10-11 | For an invoice, the result is the first matching supplier's id and name with 0.99 when that supplier is not SUP999, and SUP999 with its name "xxxxx Nog aan te maken leveranciers" and 0.65 otherwise (default set at lines 10-11, replaced at lines 33-43). |
| Classifier.CollectionIds | mockData.ts:5-8 | The four collection-account ids are ids of the reference list, of collection accounts. |
| Classifier.FileNameIrrelevant | services/aiEngine.ts:5 | The file name never affects the classification. |
| Subject.Shorten | services/aiEngine.ts:59-62 | The result never exceeds 45 characters. A description of at most 45 characters comes back unchanged; a longer one becomes exactly 45: its first 42 characters followed by "...". |
| Subject.ShortenIdempotent | services/aiEngine.ts:59-62 | Shortening an already shortened description changes nothing. |
| Subject.Alias | services/aiEngine.ts:73-76 | The three case-sensitive tests run in sequence and the last one that holds wins: "Lunch" exactly when "horeca" occurs; "AH" when "supermarkt" occurs but not "horeca"; "Shell" when only "tank" occurs; "Div" when none occurs. |
| Subject.Compose | services/aiEngine.ts:68-81 | The composed subject always ends with the whole description. For a receipt it is preceded by exactly the alias and ": " (at most 7 characters); otherwise nothing precedes it. |
| Subject.HardCut | services/aiEngine.ts:83-86 | The cut result is a prefix of its input, with the input's length up to 45 and 45 beyond that. |
| Subject.HeaderSubject | services/aiEngine.ts:65-87 | The subject never exceeds 45 characters and is always a prefix of the composed text (`alias: description` for a receipt, the description otherwise). It is the whole composed text when that fits, and exactly 45 characters when it does not. |
| Subject.ReceiptSubjectStartsWithAlias | services/aiEngine.ts:73-84 | A receipt subject begins with the alias and ": ", followed by as much of the description as fits in 45 characters. |
| Subject.InvoiceSubjectIdempotent | services/aiEngine.ts:79-86 | An invoice subject, fed back as the description, gives itself. |
| Subject.TruncationPoliciesDiffer | services/aiEngine.ts:59-87 | On a description longer than 45 characters, both policies give 45 characters and agree on the first 42. The subject ends with the description's characters 42–44, the shortened text with "..."; the two are equal only when those characters are "...". |
| Spreading.YearPatternIsYearToken | services/aiEngine.ts:91 | The expression `202[3-9]` matches at a position exactly when one of the tokens 2023–2029 starts there. |
| Spreading.HasYearFrom | services/aiEngine.ts:91-93 | The year scan from a position succeeds exactly when the year expression matches at or after that position. |
| Spreading.HasYearIsMentionsYear | services/aiEngine.ts:91-93 | The year scan over the whole text succeeds exactly when a year token 2023–2029 occurs in it. |
| Spreading.DetectCostSpreading | services/aiEngine.ts:90-94 | A description is a cost-spreading candidate exactly when it contains a year token 2023–2029 and, ignoring case, one of jan…dec, q1…q4, kwartaal, jaar or annual. |
| Spreading.NoYearWithoutTwo | services/aiEngine.ts:91 | A description without the digit 2 names no year, so it is never a cost-spreading candidate. |
| Reconciler.ReduceFrom | services/aiEngine.ts:104 | Folding the amounts left to right from any position adds exactly the sum of the remaining lines to the accumulator. |
| Reconciler.SumIsReduce | services/aiEngine.ts:104 | `Sum`, the sum of the line amounts used throughout the model, equals the source's `reduce((sum, line) => sum + line.amount, 0)`. |
| Reconciler.SumUpdate | services/aiEngine.ts:104 | Changing one line's amount changes the sum of the lines by exactly the change. |
| Reconciler.LargestFrom | services/aiEngine.ts:123-125 | The left-to-right reduce, which starts at index 0 and moves only on a strictly greater amount, ends on the first line holding the largest amount. |
| Reconciler.LargestLineIndex | services/aiEngine.ts:123-125 | On a non-empty list, the index found holds the largest amount, and no earlier line holds as much. |
| Reconciler.FirstLargestUnique | services/aiEngine.ts:123-125 | Only one position can be the first largest line. |
| Reconciler.Diagnose | services/aiEngine.ts:147-157 | The cause is VAT-exclusive lines exactly when the lines plus 21% reach the total within 0.10. Failing that, it is missing lines exactly when the total exceeds the sum, and a discount exactly when it does not. The VAT test comes first. |
| Reconciler.ValidateAndHeal | services/aiEngine.ts:97-167 | There is exactly one audit entry, and the adjusted total is the input total. The result is valid exactly when the lines are within 5 cents of the total, and valid lines always sum to the total. SUCCESS exactly on equality, with the lines unchanged. FIX exactly for 1 to 5 cents, with the difference in the message. WARNING exactly beyond 5 cents, with the lines unchanged, the signed difference and the diagnosed cause. |
| Reconciler.FixTouchesOnlyLargestLine | services/aiEngine.ts:120-144 | In the FIX branch, only the first largest line changes, and only its amount, by exactly the difference. The detail names its 1-based position, the old amount and the new amount. |
| Reconciler.RevalidationSucceeds | services/aiEngine.ts:111-143 | Lines produced by a SUCCESS or FIX run validate again as SUCCESS and stay unchanged. |
| Cockpit.IsBalanced | components/DetailCockpit.tsx:85-87 | The badge shows balanced exactly when the lines sum to the total to the cent. |
| Cockpit.ApplyValidation | components/DetailCockpit.tsx:42-46 | Applying a result replaces the lines with the healed lines and appends the result's log after the old audit log, which stays a prefix. Every other field of the document is kept. |
| Cockpit.RunValidation | components/DetailCockpit.tsx:37-46 | One validation run makes the balance badge show balanced exactly when the engine reports valid, which is exactly when the lines were within 5 cents. The audit log grows by one entry stamped with the run's time, and the document stays valid input for the engine. |
| Cockpit.RunValidations | components/DetailCockpit.tsx:37-46 | Over repeated runs the audit log only grows: every earlier entry stays in place, there is one new entry per run in run order, and the total never changes. |
| Cockpit.BalancedAfterValidRun | components/DetailCockpit.tsx:85-87 | After a run that ended in SUCCESS or FIX, the balance badge shows balanced. |
| Cockpit.FlagCostSpreading | components/DetailCockpit.tsx:23-29 | Opening a document sets each line's spread flag to the detector's verdict on its description and changes nothing else on any line. |
| Cockpit.FlaggingKeepsSum | components/DetailCockpit.tsx:23-29 | Flagging leaves the sum of the line amounts unchanged. |
| Cockpit.FlaggingKeepsBalance | components/DetailCockpit.tsx:23-29 | Opening a document does not change its balance badge. |
| Scenarios.FuelReceiptScenario | components/IngestScreen.tsx:43 | "Shell Station Den Haag Fuel Receipt" is a RECEIPT on VC_FUEL ("xxxxx verzamelcrediteur tankbonnen") with confidence 0.95. |
| Scenarios.KpnInvoiceScenario | components/IngestScreen.tsx:44 | "KPN Zakelijk Invoice #2993 Internet Services" is an INVOICE on SUP005 ("KPN Zakelijk") with confidence 0.99. |
| Scenarios.InvoiceNamesKpnFirst | mockData.ts:5-11 | KPN Zakelijk is the first supplier, in list order, whose name the invoice text mentions; the four collection accounts before it are not mentioned. |
| Scenarios.NamedInvoiceRouting | services/aiEngine.ts:33-39 | A text without receipt keywords whose first name match is a supplier other than SUP999 is an INVOICE on that supplier's id and name with confidence 0.99. |
| Scenarios.BonAccountNamesMakeReceipts | services/aiEngine.ts:7 | A text that names the fuel, supermarket or other collection account (each name contains "bon") is always a RECEIPT. |
| Scenarios.HorecaNameInvoiceScenario | services/aiEngine.ts:33-39 | The text "xxxxx verzamelcrediteur horeca" is an INVOICE on VC_HORECA with confidence 0.99. |
| Scenarios.RoutedReceiptAlias | components/IngestScreen.tsx:60 | For every receipt text, the subject alias taken from the routed supplier name is the brand of the category the cascade chose: Shell for fuel, AH for supermarket, Lunch for horeca, Div otherwise. |
| Scenarios.CollectionAccountAliases | services/aiEngine.ts:73-76 | Each collection account's name gets its own alias: the fuel account "Shell", the supermarket account "AH", the horeca account "Lunch", the other account "Div". |
| Scenarios.FuelReceiptSubjectScenario | components/IngestScreen.tsx:60 | The subject of the fuel receipt's first line is "Shell: Brandstof V-Power". |
| Scenarios.QuarterLineIsSpread | components/IngestScreen.tsx:84 | The invoice line "Internet Services Q4 2023" is a cost-spreading candidate. |
| Scenarios.ReceiptLinesAreNotSpread | components/IngestScreen.tsx:60-66 | The receipt lines "Shell: Brandstof V-Power" and "Koffie Grande" are not cost-spreading candidates. |
| Scenarios.BalancedReceiptScenario | components/IngestScreen.tsx:55-70 | The fuel receipt (45.00 over 37.19 and 7.81) validates as SUCCESS with its lines unchanged. |
| Scenarios.VatExclusiveScenario | components/IngestScreen.tsx:81-87 | The KPN invoice (121.00 over one line of 100.00) ends in a WARNING with the VAT-exclusive cause, although its total exceeds its lines. |
| Scenarios.RoundingFixScenario | services/aiEngine.ts:120-144 | A 3-cent gap (100.00 over 60.00 and 39.97) is absorbed by line #1, which becomes 60.03, and the balance badge then shows balanced. |
| Scenarios.MissingLinesScenario | services/aiEngine.ts:153-154 | A total 50.00 above its only line is diagnosed as missing lines. |
| Scenarios.DiscountScenario | services/aiEngine.ts:155-156 | A total below its lines, and not VAT-related, is diagnosed as a discount. |

## Left out

- The React screens, navigation, login gate, toasts and progress timers are not modelled, because they are presentation only. This covers `App.tsx`, `components/*.tsx` apart from the three cockpit functions above, and `components/HistoryScreen.tsx`.
- "Post to Exact" (`console.log`/`alert`) is not modelled, because it is an output sink without logic. The Post button is never disabled (components/DetailCockpit.tsx:123-129).
- Audit timestamps (`new Date()`) are modelled as the parameter `now`, because they come from the clock.
- Floating-point sums and `toFixed(2)` are replaced by exact integer cents, because binary floating point is not modelled. With floats, a difference such as 0.05 can land on either side of the FIX threshold.
- The Dutch message wording and its `toFixed` formatting are left out, because they are presentation. Entries carry their kind, the signed difference, the 1-based line number with old and new amounts, and a cause tag instead.
- Subject.Shorten: counts the 45- and 42-character limits in Unicode scalar values (Dafny `char`s), while the source's `length` and `substring` count UTF-16 code units. For text outside the Basic Multilingual Plane (an emoji, say) the model keeps up to twice as many characters as the source. Because the unit differs, the source's cut can also split a surrogate pair, which the model cannot represent.
- Subject.HardCut: cuts at 45 Unicode scalar values rather than the source's 45 UTF-16 code units, with the same effect outside the Basic Multilingual Plane; a half surrogate pair is not representable.
- Subject.HeaderSubject: its 45-character bound is in Unicode scalar values, not UTF-16 code units, for the reason given for Subject.HardCut.
- Text.ToLower: lowercases ASCII only, because Unicode case mapping is not modelled.
- `originalSupplierName` in classifyAndRoute is not modelled, because it is assigned but never returned.
- The initial cause "Oorzaak onbekend." is not modelled, because every path overwrites it.
- `HISTORICAL_MATCHES`, `VAT_CODES`, `GL_ACCOUNTS` and `PAST_INVOICES` are not modelled, because the engine reads none of them.
- `validationErrors` is carried as a field of `Types.Document`, and applying a validation result keeps it, but nothing in the engine reads or writes it.
- Reconciler.ValidateAndHeal: requires `Healable(doc)`, which excludes an empty line list with a total of 1 to 5 cents either way (from −5 to −1 or from 1 to 5). On that input the source indexes a missing first line in the FIX branch and fails.
- Cockpit.RunValidation: also requires `Healable(doc)`, for the same reason.
- Period tokens are exactly the alternatives of the expression at services/aiEngine.ts:92.
- The two regular expressions of detectCostSpreading are modelled by what they match (the characters `202` and a digit from 3 to 9; one of the period words, ignoring case), not by a regular-expression engine.
