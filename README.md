# Bank wizard: camt.053 import, matching and payment booking

This project models the core of the ERPNext bank wizard
(`bank_wizard.py`) in Dafny. The wizard reads a camt.053 bank statement
and turns every booked transaction into a transaction record. A record
holds a unique reference, a transaction reference, the counterparty and
the ledger documents the reference names. The wizard then books a payment
entry for a confirmed record and allocates it against the matched
invoices or expense claims.

Modules, one file each:

- `wrappers.dfy`: `Option` and `Result`. A `Result` failure stands for an exception the source lets escape.
- `text.dfy`: the Python string built-ins the wizard relies on:
  - `a in b`
  - `str(n)`
  - `int(s)`
  - `s.split(c)`

  Each comes with its round-trip and characterisation lemmas.
- `lists.dfy`: `FilterMap`, a filtered and projected query, as `frappe.get_all` with filters or a list comprehension computes it. Its lemmas cover membership, emptiness, the first row and the only row.
- `camt.dfy`:
  - the statement as values: an `Entry` with its `TxDetail`s, where every XML lookup is an `Option` field;
  - the fallback chains that read the booking date, amounts, the credit/debit indicator, the unique reference, the transaction reference and the counterparty.
- `matcher.dfy`: the ledger tables, the candidate queries, `match_by_amount`, `match_by_comment`, `get_unpaid_sales_invoices_by_customer`, and the reference matcher. The matcher has two forms:
  - `ReferenceMatch` is its specification;
  - `MatchReference` is the method with the source's scan loops, proved equal to the specification.
- `assembler.dfy`: `read_camt_transactions`. `ReadCamt` is the specification, a left fold over entries and details. `ReadCamtTransactions` is the nested loop, proved equal to it. This file also holds the payment-instruction (`PMTINF-…`) path and the properties of the whole import: numbering, duplicate suppression, record counts and idempotent re-import.
- `payment.dfy`: `make_payment_entry` and `create_reference`. A `PaymentEntry` class has a mutable unallocated amount, references and submitted flag, with the invariant "unallocated = paid − Σ allocated".

Behaviours of the code worth knowing, which the model keeps as written:

- **Matching and the duplicate check.** In the transaction-detail path, matching runs only for a transaction whose unique reference is not yet booked (lines 292-295). A transaction that is already booked is skipped before any ledger lookup.
- **Allocation amount.** `create_reference` allocates `min(paid_amount, outstanding)` against the full paid amount, not against what remains of it (lines 607-611). The unallocated amount can therefore become negative (`FullAmountAllocatedTwice`).
- **Proposal id.** The proposal id of an instruction id is its second `-`-separated field (line 418). `PMTINF-PP-0042-3` therefore names proposal `PP`, not `PP-0042` (`HyphenatedProposalIsCut`).
- **Exceptions.** An exception in one transaction ends the whole import, because nothing catches it. Examples are a missing indicator and a reference that cannot be hashed. The model returns `Failure` for the whole statement.
- **Internal Transfer references.** The references of an Internal Transfer are created as Sales Invoice rows (line 506).

## Model

All source paths are `erpnext_bank_utils/erpnext_bank_utils/page/bank_wizard/bank_wizard.py`.

| member | source | states |
|---|---|---|
| Matcher.MatchByAmount | erpnext_bank_utils/erpnext_bank_utils/page/bank_wizard/bank_wizard.py:12-18 | a returned name belongs to an unpaid, submitted sales invoice whose grand total is the amount |
| Matcher.MatchByAmountUnique | erpnext_bank_utils/erpnext_bank_utils/page/bank_wizard/bank_wizard.py:12-18 | `match_by_amount` answers exactly when one unpaid sales invoice has that grand total |
| Matcher.MatchByComment | erpnext_bank_utils/erpnext_bank_utils/page/bank_wizard/bank_wizard.py:21-28 | a returned name occurs in the comment and belongs to an unpaid, submitted sales invoice |
| Matcher.MatchByCommentUnique | erpnext_bank_utils/erpnext_bank_utils/page/bank_wizard/bank_wizard.py:21-28 | `match_by_comment` answers exactly when the comment names one unpaid sales invoice |
| Matcher.UnpaidSalesInvoicesByCustomerMember | erpnext_bank_utils/erpnext_bank_utils/page/bank_wizard/bank_wizard.py:31-36 | the query lists a name exactly when a submitted, not-paid sales invoice of that customer has it |
| Camt.ReadEntryContext | erpnext_bank_utils/erpnext_bank_utils/page/bank_wizard/bank_wizard.py:133-143 | succeeds exactly when booking date, amount and currency are present, carrying that date, amount and currency; a missing date fails with `MissingBookingDate`, a missing amount or currency with `MissingEntryAmount`; the account-service reference defaults to "" |
| Camt.CreditDebit | erpnext_bank_utils/erpnext_bank_utils/page/bank_wizard/bank_wizard.py:149-153 | the detail's indicator, else the entry's; fails exactly when both are missing |
| Camt.DetailUniqueReference | erpnext_bank_utils/erpnext_bank_utils/page/bank_wizard/bank_wizard.py:156-180 | fallback order EndToEndId, TxId, PmtInfId, "acctsvcrref-count", and on the last fallback exactly the md5 of "date:amt:nm"; fails exactly when it reaches the hash without `Amt` or `Nm` |
| Camt.CountedReferencesDistinct | erpnext_bank_utils/erpnext_bank_utils/page/bank_wizard/bank_wizard.py:169-171 | counter-suffixed references of different positions in one entry differ |
| Camt.HashCodeInjective | erpnext_bank_utils/erpnext_bank_utils/page/bank_wizard/bank_wizard.py:176-180 | the hashed text "date:amt:nm" determines its three parts when date and amount contain no colon |
| Camt.HashedReferencesIdentify | erpnext_bank_utils/erpnext_bank_utils/page/bank_wizard/bank_wizard.py:176-180 | with an injective digest and colon-free date and amount, two details reaching the hash fallback share a unique reference only if they agree on date, amount text and party name |
| Camt.DetailAmount | erpnext_bank_utils/erpnext_bank_utils/page/bank_wizard/bank_wizard.py:181-194 | amount and currency from `TxAmt/Amt`, else `Amt`, else the entry's, always both from the same element |
| Camt.AddressLines | erpnext_bank_utils/erpnext_bank_utils/page/bank_wizard/bank_wizard.py:211-243 | a structured street gives line 1 "street number" (the street alone without a number) and line 2 "postcode town", never blank; otherwise exactly two `AdrLine`s, else blank lines |
| Camt.ComposeAddress | erpnext_bank_utils/erpnext_bank_utils/page/bank_wizard/bank_wizard.py:258-266 | the address always ends with the country; it is "l1, l2, country", "l1, country" or the country alone, by which lines are blank |
| Camt.ResolveParty | erpnext_bank_utils/erpnext_bank_utils/page/bank_wizard/bank_wizard.py:211-266 | a named party's address is `ComposeAddress` of its `AddressLines` and country; the name comes from `Nm`, else the first `AdrLine`, else "not found" (the address is then the country alone); the IBAN is kept |
| Camt.ResolveCounterparty | erpnext_bank_utils/erpnext_bank_utils/page/bank_wizard/bank_wizard.py:195-271 | DBIT reads the creditor and `CdtrAcct`, anything else reads the debtor and `DbtrAcct`; no `RltdPties` gives three blanks |
| Camt.StructuredAddressIsComplete | erpnext_bank_utils/erpnext_bank_utils/page/bank_wizard/bank_wizard.py:213-262 | a named party with a non-blank street always gets the full "line1, line2, country" address |
| Camt.TransactionReference | erpnext_bank_utils/erpnext_bank_utils/page/bank_wizard/bank_wizard.py:273-289 | fallback order structured reference, unstructured text, EndToEndId, AddtlTxInf, unique reference |
| Camt.EntryUniqueReference | erpnext_bank_utils/erpnext_bank_utils/page/bank_wizard/bank_wizard.py:392-405 | fallback order AcctSvcrRef, TxId, PmtInfId, md5 of "date:currency:amount" |
| Matcher.ScanCandidates | erpnext_bank_utils/erpnext_bank_utils/page/bank_wizard/bank_wizard.py:318-326 | the scan loop lists the named candidates in order, leaves the party of the last one, and adds up their amounts |
| Matcher.MatchReference | erpnext_bank_utils/erpnext_bank_utils/page/bank_wizard/bank_wizard.py:296-370 | the matcher as the source runs it equals the specification `ReferenceMatch` |
| Matcher.MatchDebit | erpnext_bank_utils/erpnext_bank_utils/page/bank_wizard/bank_wizard.py:302-345 | the debit branch with its two scan loops equals `ReferenceMatch` for DBIT |
| Matcher.MatchCredit | erpnext_bank_utils/erpnext_bank_utils/page/bank_wizard/bank_wizard.py:346-361 | the credit branch with its scan loop equals `ReferenceMatch` for any other indicator |
| Matcher.MatchedNameMember | erpnext_bank_utils/erpnext_bank_utils/page/bank_wizard/bank_wizard.py:318-361 | a name is in a scan's match list exactly when a candidate of that name is named by the reference |
| Matcher.PurchaseInvoiceMatched | erpnext_bank_utils/erpnext_bank_utils/page/bank_wizard/bank_wizard.py:302-326 | for a debit, an invoice is matched exactly when it is open, belongs to the name-matched supplier if there is one, and its name or bill number occurs in the reference |
| Matcher.ExpenseClaimMatched | erpnext_bank_utils/erpnext_bank_utils/page/bank_wizard/bank_wizard.py:333-345 | for a debit, a claim is matched exactly when it is submitted and unpaid and its name occurs in the reference |
| Matcher.SalesInvoiceMatched | erpnext_bank_utils/erpnext_bank_utils/page/bank_wizard/bank_wizard.py:346-361 | for a credit, an invoice is matched exactly when it has something outstanding and its name occurs in the reference; there are no employee or expense matches |
| Matcher.LastMatched | erpnext_bank_utils/erpnext_bank_utils/page/bank_wizard/bank_wizard.py:320-324 | the party left by a scan is that of the last matched candidate, whose name ends the match list |
| Matcher.SalesPartyMatch | erpnext_bank_utils/erpnext_bank_utils/page/bank_wizard/bank_wizard.py:348-361 | the credit party is the customer of the last matched invoice, else the first active customer of that name |
| Matcher.PurchasePartyMatch | erpnext_bank_utils/erpnext_bank_utils/page/bank_wizard/bank_wizard.py:304-326 | the debit party is the supplier of the last matched invoice, else the first active supplier of that name |
| Matcher.CreditMatchedAmount | erpnext_bank_utils/erpnext_bank_utils/page/bank_wizard/bank_wizard.py:352-361 | a credit's matched amount is positive exactly when an invoice matched, and zero otherwise |
| Matcher.TotalPositive | erpnext_bank_utils/erpnext_bank_utils/page/bank_wizard/bank_wizard.py:326 | matched documents with positive amounts add up to a positive amount |
| Matcher.ResetEmpty | erpnext_bank_utils/erpnext_bank_utils/page/bank_wizard/bank_wizard.py:363-370 | an empty invoice list becomes None; an empty expense list becomes None only when the invoice list was a list |
| Matcher.EmptyExpenseListKept | erpnext_bank_utils/erpnext_bank_utils/page/bank_wizard/bank_wizard.py:363-370 | a debit keeps an empty expense list exactly when there were no invoices to search and no claim among the open ones matched |
| Matcher.SingleSalesInvoiceNamed | erpnext_bank_utils/erpnext_bank_utils/page/bank_wizard/bank_wizard.py:352-361 | a reference containing the only open sales invoice's name matches it, its customer and its outstanding amount |
| Assembler.ParsePaymentInstruction | erpnext_bank_utils/erpnext_bank_utils/page/bank_wizard/bank_wizard.py:414-418 | parsing succeeds exactly when there are at least two `-`-fields and the last is an integer; the proposal is then the second field and contains no `-`, and the row is that integer plus one, so at least 1 |
| Assembler.PaymentInstructionRoundTrip | erpnext_bank_utils/erpnext_bank_utils/page/bank_wizard/bank_wizard.py:414-418 | "prefix-proposal-row" is read back as the proposal and row + 1 |
| Assembler.HyphenatedProposalIsCut | erpnext_bank_utils/erpnext_bank_utils/page/bank_wizard/bank_wizard.py:416-418 | a proposal name containing `-` is cut at its first `-` |
| Assembler.PlannedPayment | erpnext_bank_utils/erpnext_bank_utils/page/bank_wizard/bank_wizard.py:414-423 | a found line has the parsed proposal as parent and the parsed row as index; none found means no line has both |
| Assembler.InstructionRecord | erpnext_bank_utils/erpnext_bank_utils/page/bank_wizard/bank_wizard.py:411-494 | with a planned line, receiver, "l1, l2" address, IBAN and reference are copied; the invoice is matched exactly when that purchase invoice is outstanding, with the first such invoice's grand total as matched amount (otherwise the amount is 0); the party match is the first supplier of that name. Without a line, "???" fields, the unique reference as transaction reference, and no matches |
| Assembler.InstructionRecordTakesFirst | erpnext_bank_utils/erpnext_bank_utils/page/bank_wizard/bank_wizard.py:426-439 | read against the tables: the party match is the first supplier in table order named as the receiver (none exactly when there is none), and the matched amount is the grand total of the first outstanding purchase invoice of that name |
| Assembler.ReadCamtTransactions | erpnext_bank_utils/erpnext_bank_utils/page/bank_wizard/bank_wizard.py:131-495 | the nested loop over entries and details equals the fold `ReadCamt`, error cases included |
| Assembler.DetailStepExtends | erpnext_bank_utils/erpnext_bank_utils/page/bank_wizard/bank_wizard.py:291-389 | a detail appends one record, numbered by position, exactly when its reference is not yet booked |
| Assembler.DetailsFoldExtends | erpnext_bank_utils/erpnext_bank_utils/page/bank_wizard/bank_wizard.py:145-389 | an entry's N details append exactly as many records as details with new references (at most N), numbered in order |
| Assembler.EntryStepExtends | erpnext_bank_utils/erpnext_bank_utils/page/bank_wizard/bank_wizard.py:131-494 | an entry appends its details' records, or at most one record without details |
| Assembler.EntriesFoldExtends | erpnext_bank_utils/erpnext_bank_utils/page/bank_wizard/bank_wizard.py:131-495 | the fold only appends, numbering and checking every new record |
| Assembler.ReadCamtRecords | erpnext_bank_utils/erpnext_bank_utils/page/bank_wizard/bank_wizard.py:371-389 | records are numbered 0, 1, 2, … and none carries a reference number already booked |
| Assembler.RepeatedDetailKeptTwice | erpnext_bank_utils/erpnext_bank_utils/page/bank_wizard/bank_wizard.py:291-294 | duplicates are only checked against booked payments: two equal details with a new reference both yield a record |
| Assembler.DetailsFoldReimport | erpnext_bank_utils/erpnext_bank_utils/page/bank_wizard/bank_wizard.py:291-294 | once its new references are booked, an entry's details yield nothing |
| Assembler.EntryStepReimport | erpnext_bank_utils/erpnext_bank_utils/page/bank_wizard/bank_wizard.py:406-409 | once its new references are booked, an entry yields nothing |
| Assembler.ReimportYieldsNothing | erpnext_bank_utils/erpnext_bank_utils/page/bank_wizard/bank_wizard.py:291-294 | importing a statement again after booking its references yields no records |
| Payment.Allocate | erpnext_bank_utils/erpnext_bank_utils/page/bank_wizard/bank_wizard.py:608-611 | the allocation is the minimum of paid and outstanding: at most each, equal to one |
| Payment.ReferenceAllocation | erpnext_bank_utils/erpnext_bank_utils/page/bank_wizard/bank_wizard.py:595-620 | invoice types take base grand total and outstanding, other types the claimed total as both; the allocation is at most paid and outstanding |
| Payment.PlannedAllocations | erpnext_bank_utils/erpnext_bank_utils/page/bank_wizard/bank_wizard.py:584-586 | rows in reference-list order, one per document up to the first missing one |
| Payment.AllocatedWithinOutstanding | erpnext_bank_utils/erpnext_bank_utils/page/bank_wizard/bank_wizard.py:604-620 | the total allocated is at most the total outstanding |
| Payment.PlannedWithinOutstanding | erpnext_bank_utils/erpnext_bank_utils/page/bank_wizard/bank_wizard.py:604-620 | the rows `make_payment_entry` plans allocate in total at most what their documents have outstanding |
| Payment.FullAmountAllocatedTwice | erpnext_bank_utils/erpnext_bank_utils/page/bank_wizard/bank_wizard.py:607-626 | two fully outstanding invoices of any invoice type, each of the paid amount, leave the unallocated amount at minus the paid amount |
| Payment.ReferenceType | erpnext_bank_utils/erpnext_bank_utils/page/bank_wizard/bank_wizard.py:506-576 | Expense Claim exactly for Pay to an Employee, Purchase Invoice for other Pay, Sales Invoice for Receive and Internal Transfer, none otherwise |
| Payment.InvoiceTypesNameInvoice | erpnext_bank_utils/erpnext_bank_utils/page/bank_wizard/bank_wizard.py:604 | "Purchase Invoice" and "Sales Invoice" pass the `"Invoice" in` test |
| Payment.ExpenseClaimIsNoInvoice | erpnext_bank_utils/erpnext_bank_utils/page/bank_wizard/bank_wizard.py:604 | "Expense Claim" fails the `"Invoice" in` test |
| Payment.ReferenceTypeSelectsAmounts | erpnext_bank_utils/erpnext_bank_utils/page/bank_wizard/bank_wizard.py:553-556 | payments to employees allocate against the claimed total, all others against the invoice's outstanding amount |
| Payment.DeriveCompany | erpnext_bank_utils/erpnext_bank_utils/page/bank_wizard/bank_wizard.py:508-513 | the given company, else the company of the account paid from, else of the account paid to |
| Payment.EntryPaidTo | erpnext_bank_utils/erpnext_bank_utils/page/bank_wizard/bank_wizard.py:578-579 | an employee party is paid to the payable account when there is one, else to the given account |
| Payment.PaymentEntry.Insert | erpnext_bank_utils/erpnext_bank_utils/page/bank_wizard/bank_wizard.py:581 | a new entry has paid = received = amount, no references, all of it unallocated, and is not submitted |
| Payment.PaymentEntry.CreateReference | erpnext_bank_utils/erpnext_bank_utils/page/bank_wizard/bank_wizard.py:595-626 | appends the document's row and lowers unallocated by exactly its allocation, nothing else changes; a missing document raises and changes nothing |
| Payment.PaymentEntry.CreateReferences | erpnext_bank_utils/erpnext_bank_utils/page/bank_wizard/bank_wizard.py:584-586 | the rows added are the planned allocations in list order; it succeeds exactly when every document exists |
| Payment.PaymentEntry.Submit | erpnext_bank_utils/erpnext_bank_utils/page/bank_wizard/bank_wizard.py:588-590 | submission changes neither references nor unallocated amount |
| Payment.MakePaymentEntry | erpnext_bank_utils/erpnext_bank_utils/page/bank_wizard/bank_wizard.py:497-592 | an unknown payment type raises before insert; otherwise the entry has the dispatched fields, the derived company and the planned rows, keeps unallocated = paid − Σ allocated, and is submitted only if fully referenced and requested |

## Left out

- XML parsing. BeautifulSoup's case-insensitive search, which finds a tag anywhere below an element, is not modelled. The statement is given as `Entry`/`TxDetail` values whose `Option` fields are the lookups' results; `read_camt053` (lines 123-128) only parses and delegates.
- `hashlib.md5` and Python's `str(float)` are foreign code. They are the function parameters `Foreign.md5Hex` and `Foreign.floatText`.
- Floating point. Amounts are integers (hundredths of the currency unit), and `float()` rounding is not modelled. An amount text that does not parse is an absent value.
- Database access. Reads are parameters:
  - the `Ledger` tables, in the order the database returns them;
  - the set of booked payment reference numbers;
  - the documents' amounts, the accounts' companies and the payable account.

  String filters compare exactly; database collation is not modelled. Writes are the `PaymentEntry` object's state. `frappe.log_error` and `log` are not modelled.
- `get_payable_account` is not part of this model; its result is the `payableAccount` parameter.
- `ast.literal_eval` of the reference list is not modelled; the list is given already parsed.
- ERPNext's own behaviour on `insert`, `save` and `submit` (validation, naming, GL postings) is not modelled. `PaymentEntry.Insert` assumes that insert leaves the whole paid amount unallocated, and `name` is a parameter.
- Fields that only copy arguments are folded into one: `reference_date`/`posting_date` into `date`, source/target exchange rate into `exchangeRate`, and `camt_amount` into the paid amount.
- `get_defaults`, `get_bank_accounts` and `create_payment_entry` (lines 39-64, 92-121) are thin lookups. They are not modelled, nor is the earlier `create_reference` (line 67), which the later definition shadows.
- `ParsePaymentInstruction`: Python's `int()` also accepts surrounding whitespace, `_` separators and non-ASCII digits; the model accepts only an optional `+` and ASCII digits.
- `InstructionRecord`: the source's blanket `except` also covers database errors in the proposal and invoice lookups; the model's lookups cannot fail.
- `bank_wizard.js`, `hooks.py`, the desk configuration and `setup.py` are user interface and packaging with no import logic.
