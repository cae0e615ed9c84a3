/**
 * `read_camt_transactions`: turning the entries of a camt.053 statement
 * into transaction records for the wizard. Every transaction detail of an
 * entry yields one record, matched against the ledger; an entry without
 * details yields one record built from the payment proposal its
 * `PMTINF-<proposal>-<row>` instruction id points at. A record whose unique
 * reference is already the reference number of a payment entry is skipped.
 *
 * `ReadCamt` is the specification (a left fold over the entries), and
 * `ReadCamtTransactions` is the loop the source runs, proved equal to it.
 */
module Assembler {
  import opened Wrappers
  import opened Text
  import opened Lists
  import opened Camt
  import opened Matcher

  /**
   * A transaction record. Records built from transaction details carry the
   * employee and expense-claim matches; records of entries without details
   * do not have those keys at all.
   */
  datatype Txn =
    | DetailTxn(
        txid: nat, date: string, currency: string, amount: int,
        partyName: string, partyAddress: string, creditDebit: string, partyIban: string,
        uniqueReference: string, transactionReference: string,
        partyMatch: Option<string>, invoiceMatches: Option<seq<string>>, matchedAmount: Option<int>,
        employeeMatch: Option<string>, expenseMatches: Option<seq<string>>)
    | InstructionTxn(
        txid: nat, date: string, currency: string, amount: int,
        partyName: string, partyAddress: string, creditDebit: string, partyIban: string,
        uniqueReference: string, transactionReference: string,
        partyMatch: Option<string>, invoiceMatches: Option<seq<string>>, matchedAmount: Option<int>)

  // ---- Payment instructions --------------------------------------------------

  /**
   * Reads an instruction id: split at `-`, the proposal is the second field
   * and the row is the last field, read as an integer, plus one. Too few
   * fields or a last field that is not an integer raise.
   */
  function ParsePaymentInstruction(id: string): (r: Option<(string, int)>)
    ensures r.Some? ==> r.value.1 >= 1 && '-' !in r.value.0
    ensures r.Some? ==> |Split(id, '-')| >= 2 && r.value.0 == Split(id, '-')[1]
    ensures r.Some? <==> |Split(id, '-')| >= 2 && ParseInt(Split(id, '-')[|Split(id, '-')| - 1]).Some?
    ensures r.Some? ==> r.value.1 == ParseInt(Split(id, '-')[|Split(id, '-')| - 1]).value + 1
  {
    var fields := Split(id, '-');
    SplitPiecesFree(id, '-');
    match ParseInt(fields[|fields| - 1])
    case None => None
    case Some(n) => if |fields| < 2 then None else Some((fields[1], n + 1))
  }

  /** A row number printed by `str` contains no `-`. */
  lemma RowFree(row: nat)
    ensures '-' !in NatToString(row)
  {
    var digits := NatToString(row);
    assert forall k :: 0 <= k < |digits| ==> digits[k] != '-' by {
      forall k | 0 <= k < |digits| ensures digits[k] != '-' {
        assert IsDigit(digits[k]);
      }
    }
  }

  /** An instruction id written as `<prefix>-<proposal>-<row>` is read back as the proposal and the next row. */
  lemma PaymentInstructionRoundTrip(prefix: string, proposal: string, row: nat)
    requires '-' !in prefix && '-' !in proposal
    ensures ParsePaymentInstruction(prefix + "-" + proposal + "-" + NatToString(row)) == Some((proposal, row + 1))
  {
    var digits := NatToString(row);
    RowFree(row);
    SplitFree(digits, '-');
    SplitAtSeparator(proposal, digits, '-');
    SplitAtSeparator(prefix, proposal + "-" + digits, '-');
    assert prefix + "-" + proposal + "-" + digits == prefix + ['-'] + (proposal + ['-'] + digits);
    assert Split(prefix + "-" + proposal + "-" + digits, '-') == [prefix, proposal, digits];
    ParseIntOfNatToString(row);
  }

  /**
   * A proposal whose own name contains `-` is cut at its first `-`: the
   * instruction `PMTINF-PP-0042-3` names proposal `PP`, not `PP-0042`.
   */
  lemma HyphenatedProposalIsCut(prefix: string, head: string, tail: string, row: nat)
    requires '-' !in prefix && '-' !in head && '-' !in tail
    ensures ParsePaymentInstruction(prefix + "-" + head + "-" + tail + "-" + NatToString(row)) == Some((head, row + 1))
  {
    var digits := NatToString(row);
    RowFree(row);
    SplitFree(digits, '-');
    SplitAtSeparator(tail, digits, '-');
    SplitAtSeparator(head, tail + "-" + digits, '-');
    SplitAtSeparator(prefix, head + "-" + tail + "-" + digits, '-');
    assert head + "-" + tail + "-" + digits == head + ['-'] + (tail + ['-'] + digits);
    assert prefix + "-" + head + "-" + tail + "-" + digits == prefix + ['-'] + (head + "-" + tail + "-" + digits);
    assert Split(prefix + "-" + head + "-" + tail + "-" + digits, '-') == [prefix, head, tail, digits];
    ParseIntOfNatToString(row);
  }

  /** The planned payment an entry's instruction id points at: the first proposal line with that parent and index. */
  function PlannedPayment(e: Entry, l: Ledger): (r: Option<ProposalPayment>)
    ensures r.Some? ==> r.value in l.proposalPayments
    ensures r.Some? ==> e.pmtInfId.Some? && ParsePaymentInstruction(e.pmtInfId.value) == Some((r.value.parent, r.value.idx))
    ensures r.None? && e.pmtInfId.Some? && ParsePaymentInstruction(e.pmtInfId.value).Some? ==>
              var (proposal, row) := ParsePaymentInstruction(e.pmtInfId.value).value;
              forall pp :: pp in l.proposalPayments ==> pp.parent != proposal || pp.idx != row
  {
    if e.pmtInfId.None? then None
    else match ParsePaymentInstruction(e.pmtInfId.value)
      case None => None
      case Some((proposal, row)) =>
        var line := (pp: ProposalPayment) => if pp.parent == proposal && pp.idx == row then Some(pp) else None;
        var lines := FilterMap(l.proposalPayments, line);
        FilterMapEmpty(l.proposalPayments, line);
        if lines == [] then
          assert forall pp :: pp in l.proposalPayments ==> pp.parent != proposal || pp.idx != row by {
            forall pp | pp in l.proposalPayments ensures pp.parent != proposal || pp.idx != row {
              var i :| 0 <= i < |l.proposalPayments| && l.proposalPayments[i] == pp;
              assert !Kept(l.proposalPayments, line, i);
            }
          }
          None
        else
          FilterMapMember(l.proposalPayments, line, lines[0]);
          Some(lines[0])
  }

  /** Purchase invoice names and grand totals of the invoices called `reference` with something outstanding. */
  function OutstandingInvoiceNamed(l: Ledger, reference: string): (r: seq<(string, int)>)
    ensures forall k :: 0 <= k < |r| ==> r[k].0 == reference
  {
    var invoice := (p: PurchaseInvoice) => if p.name == reference && p.outstanding > 0 then Some((p.name, p.grandTotal)) else None;
    var rows := FilterMap(l.purchaseInvoices, invoice);
    forall k | 0 <= k < |rows| ensures rows[k].0 == reference {
      FilterMapMember(l.purchaseInvoices, invoice, rows[k]);
    }
    rows
  }

  /**
   * The record of an entry without transaction details. When its planned
   * payment is found the record copies the receiver, address, IBAN and
   * reference, and matches the receiver against suppliers by name and the
   * reference against outstanding purchase invoices; otherwise every party
   * field is "???" and nothing is matched.
   */
  function InstructionRecord(txid: nat, e: Entry, ctx: EntryContext, creditDebit: string, uniqueReference: string, l: Ledger): (t: Txn)
    ensures t.InstructionTxn? && t.txid == txid && t.uniqueReference == uniqueReference && t.creditDebit == creditDebit
    ensures t.date == ctx.date && t.currency == ctx.currency && t.amount == ctx.amount
    ensures PlannedPayment(e, l).None? ==>
              t.partyName == "???" && t.partyAddress == "???" && t.partyIban == "???" &&
              t.transactionReference == uniqueReference &&
              t.partyMatch.None? && t.invoiceMatches.None? && t.matchedAmount.None?
    ensures PlannedPayment(e, l).Some? ==>
              var pp := PlannedPayment(e, l).value;
              t.partyName == pp.receiver && t.partyAddress == pp.addressLine1 + ", " + pp.addressLine2 &&
              t.partyIban == pp.iban && t.transactionReference == pp.reference && t.matchedAmount.Some? &&
              (t.invoiceMatches.Some? <==> exists p :: p in l.purchaseInvoices && p.name == pp.reference && p.outstanding > 0) &&
              (t.invoiceMatches.Some? ==> t.invoiceMatches == Some([pp.reference])) &&
              (t.invoiceMatches.None? ==> t.matchedAmount == Some(0)) &&
              (t.invoiceMatches.Some? <==> OutstandingInvoiceNamed(l, pp.reference) != []) &&
              (OutstandingInvoiceNamed(l, pp.reference) != [] ==> t.matchedAmount == Some(OutstandingInvoiceNamed(l, pp.reference)[0].1)) &&
              t.partyMatch == First(SuppliersNamed(l, pp.receiver)) &&
              (t.partyMatch.Some? ==> exists s :: s in l.suppliers && s.supplierName == pp.receiver && s.name == t.partyMatch.value)
  {
    match PlannedPayment(e, l)
    case None =>
      InstructionTxn(txid, ctx.date, ctx.currency, ctx.amount, "???", "???", creditDebit, "???",
                     uniqueReference, uniqueReference, None, None, None)
    case Some(pp) =>
      var supplier := First(SuppliersNamed(l, pp.receiver));
      var supplierNamed := (s: Supplier) => if s.supplierName == pp.receiver then Some(s.name) else None;
      var invoice := (p: PurchaseInvoice) => if p.name == pp.reference && p.outstanding > 0 then Some((p.name, p.grandTotal)) else None;
      var invoices := OutstandingInvoiceNamed(l, pp.reference);
      FilterMapEmpty(l.purchaseInvoices, invoice);
      assert invoices == [] <==> !exists p :: p in l.purchaseInvoices && p.name == pp.reference && p.outstanding > 0 by {
        if invoices == [] {
          forall p | p in l.purchaseInvoices ensures !(p.name == pp.reference && p.outstanding > 0) {
            var i :| 0 <= i < |l.purchaseInvoices| && l.purchaseInvoices[i] == p;
            assert !Kept(l.purchaseInvoices, invoice, i);
          }
        } else {
          var i :| Kept(l.purchaseInvoices, invoice, i);
          assert l.purchaseInvoices[i] in l.purchaseInvoices;
        }
      }
      assert supplier.Some? ==> exists s :: s in l.suppliers && s.supplierName == pp.receiver && s.name == supplier.value by {
        if supplier.Some? {
          FilterMapMember(l.suppliers, supplierNamed, supplier.value);
          var i :| 0 <= i < |l.suppliers| && supplierNamed(l.suppliers[i]) == Some(supplier.value);
          assert l.suppliers[i] in l.suppliers;
        }
      }
      InstructionTxn(txid, ctx.date, ctx.currency, ctx.amount, pp.receiver, pp.addressLine1 + ", " + pp.addressLine2,
                     creditDebit, pp.iban, uniqueReference, pp.reference, supplier,
                     if invoices != [] then Some([invoices[0].0]) else None,
                     Some(if invoices != [] then invoices[0].1 else 0))
  }

  /**
   * Read against the ledger's tables: the party match is the first supplier,
   * in table order, whose supplier name is the receiver (none when there is
   * none), and the matched amount of a matched invoice is the grand total of
   * the first outstanding purchase invoice of that name.
   */
  lemma InstructionRecordTakesFirst(txid: nat, e: Entry, ctx: EntryContext, creditDebit: string, uniqueReference: string, l: Ledger)
    requires PlannedPayment(e, l).Some?
    ensures var pp := PlannedPayment(e, l).value;
            var t := InstructionRecord(txid, e, ctx, creditDebit, uniqueReference, l);
            (t.partyMatch.None? <==> forall i :: 0 <= i < |l.suppliers| ==> l.suppliers[i].supplierName != pp.receiver) &&
            (t.partyMatch.Some? ==>
               exists i :: 0 <= i < |l.suppliers| && l.suppliers[i].supplierName == pp.receiver
                           && l.suppliers[i].name == t.partyMatch.value
                           && forall j :: 0 <= j < i ==> l.suppliers[j].supplierName != pp.receiver) &&
            (t.invoiceMatches.Some? ==>
               exists i :: 0 <= i < |l.purchaseInvoices| && l.purchaseInvoices[i].name == pp.reference
                           && l.purchaseInvoices[i].outstanding > 0
                           && t.matchedAmount == Some(l.purchaseInvoices[i].grandTotal)
                           && forall j :: 0 <= j < i ==> !(l.purchaseInvoices[j].name == pp.reference && l.purchaseInvoices[j].outstanding > 0))
  {
    var pp := PlannedPayment(e, l).value;
    var t := InstructionRecord(txid, e, ctx, creditDebit, uniqueReference, l);
    var supplierNamed := (s: Supplier) => if s.supplierName == pp.receiver then Some(s.name) else None;
    var invoice := (p: PurchaseInvoice) => if p.name == pp.reference && p.outstanding > 0 then Some((p.name, p.grandTotal)) else None;
    assert SuppliersNamed(l, pp.receiver) == FilterMap(l.suppliers, supplierNamed);
    assert OutstandingInvoiceNamed(l, pp.reference) == FilterMap(l.purchaseInvoices, invoice);
    FilterMapEmpty(l.suppliers, supplierNamed);
    if t.partyMatch.None? {
      forall i | 0 <= i < |l.suppliers| ensures l.suppliers[i].supplierName != pp.receiver {
        assert !Kept(l.suppliers, supplierNamed, i);
      }
    } else {
      FilterMapHead(l.suppliers, supplierNamed);
      var i :| Kept(l.suppliers, supplierNamed, i) && supplierNamed(l.suppliers[i]) == Some(FilterMap(l.suppliers, supplierNamed)[0])
               && forall j :: 0 <= j < i ==> !Kept(l.suppliers, supplierNamed, j);
      assert l.suppliers[i].supplierName == pp.receiver && l.suppliers[i].name == t.partyMatch.value;
      forall j | 0 <= j < i ensures l.suppliers[j].supplierName != pp.receiver {
        assert !Kept(l.suppliers, supplierNamed, j);
      }
    }
    if t.invoiceMatches.Some? {
      FilterMapHead(l.purchaseInvoices, invoice);
      var i :| Kept(l.purchaseInvoices, invoice, i) && invoice(l.purchaseInvoices[i]) == Some(FilterMap(l.purchaseInvoices, invoice)[0])
               && forall j :: 0 <= j < i ==> !Kept(l.purchaseInvoices, invoice, j);
      assert l.purchaseInvoices[i].name == pp.reference && l.purchaseInvoices[i].outstanding > 0;
    }
  }

  // ---- The specification ---------------------------------------------------------

  /**
   * One transaction detail, the `count`-th of its entry: its indicator and
   * unique reference (either may raise), then, unless the reference is
   * already imported, the record with its matches appended.
   */
  function DetailStep(txns: seq<Txn>, tx: TxDetail, e: Entry, ctx: EntryContext, count: nat,
                      l: Ledger, existing: set<string>, f: Foreign): (r: Result<seq<Txn>, CamtError>)
  {
    var creditDebit :- CreditDebit(tx, e);
    var uniqueReference :- DetailUniqueReference(tx, ctx, count, f);
    if uniqueReference in existing then Success(txns)
    else
      var amount := DetailAmount(tx, ctx);
      var party := ResolveCounterparty(tx, creditDebit);
      var transactionReference := TransactionReference(tx, uniqueReference);
      var m := ReferenceMatch(transactionReference, creditDebit, party.name, l);
      Success(txns + [DetailTxn(|txns|, ctx.date, amount.1, amount.0, party.name, party.address, creditDebit, party.iban,
                                uniqueReference, transactionReference, m.partyMatch, m.invoiceMatches,
                                Some(m.matchedAmount), m.employeeMatch, m.expenseMatches)])
  }

  /** The details of one entry in order, the first of them numbered `count + 1`. */
  function DetailsFold(txns: seq<Txn>, details: seq<TxDetail>, e: Entry, ctx: EntryContext, count: nat,
                       l: Ledger, existing: set<string>, f: Foreign): Result<seq<Txn>, CamtError>
    decreases |details|
  {
    if details == [] then Success(txns)
    else
      match DetailStep(txns, details[0], e, ctx, count + 1, l, existing, f)
      case Failure(err) => Failure(err)
      case Success(next) => DetailsFold(next, details[1..], e, ctx, count + 1, l, existing, f)
  }

  /**
   * One entry: its date, amount and currency (which may raise), then its
   * details, or, without details, the entry's own unique reference, the
   * duplicate check and then its indicator (which may raise) and record.
   */
  function EntryStep(txns: seq<Txn>, e: Entry, l: Ledger, existing: set<string>, f: Foreign): Result<seq<Txn>, CamtError> {
    var ctx :- ReadEntryContext(e);
    if |e.details| > 0 then DetailsFold(txns, e.details, e, ctx, 0, l, existing, f)
    else
      var uniqueReference := EntryUniqueReference(e, ctx, f);
      if uniqueReference in existing then Success(txns)
      else if e.cdtDbtInd.None? then Failure(MissingIndicator)
      else Success(txns + [InstructionRecord(|txns|, e, ctx, e.cdtDbtInd.value, uniqueReference, l)])
  }

  /** The entries in order, appending to `txns`; the first error ends the import. */
  function EntriesFold(txns: seq<Txn>, entries: seq<Entry>, l: Ledger, existing: set<string>, f: Foreign): Result<seq<Txn>, CamtError>
    decreases |entries|
  {
    if entries == [] then Success(txns)
    else
      match EntryStep(txns, entries[0], l, existing, f)
      case Failure(err) => Failure(err)
      case Success(next) => EntriesFold(next, entries[1..], l, existing, f)
  }

  /** The records of a statement, given the reference numbers of the payment entries already booked. */
  function ReadCamt(entries: seq<Entry>, l: Ledger, existing: set<string>, f: Foreign): Result<seq<Txn>, CamtError> {
    EntriesFold([], entries, l, existing, f)
  }

  // ---- The loop the source runs ------------------------------------------------------

  /** `read_camt_transactions`: one pass over the entries, and over each entry's details. */
  method ReadCamtTransactions(entries: seq<Entry>, l: Ledger, existing: set<string>, f: Foreign)
      returns (r: Result<seq<Txn>, CamtError>)
    ensures r == ReadCamt(entries, l, existing, f)
  {
    var txns: seq<Txn> := [];
    for i := 0 to |entries|
      invariant EntriesFold(txns, entries[i..], l, existing, f) == ReadCamt(entries, l, existing, f)
    {
      var entry := entries[i];
      assert entries[i..][0] == entry && entries[i..][1..] == entries[i + 1..];
      ghost var before := txns;
      var ctx :- ReadEntryContext(entry);
      var transactions := entry.details;
      if |transactions| > 0 {
        var count := 0;
        for j := 0 to |transactions|
          invariant count == j
          invariant DetailsFold(txns, transactions[j..], entry, ctx, count, l, existing, f)
                    == EntryStep(before, entry, l, existing, f)
        {
          assert transactions[j..][0] == transactions[j] && transactions[j..][1..] == transactions[j + 1..];
          count := count + 1;
          var transaction := transactions[j];
          var creditDebit :- CreditDebit(transaction, entry);
          var uniqueReference :- DetailUniqueReference(transaction, ctx, count, f);
          var amount := DetailAmount(transaction, ctx);
          var party := ResolveCounterparty(transaction, creditDebit);
          var transactionReference := TransactionReference(transaction, uniqueReference);
          if uniqueReference !in existing {
            var m := MatchReference(transactionReference, creditDebit, party.name, l);
            txns := txns + [DetailTxn(|txns|, ctx.date, amount.1, amount.0, party.name, party.address, creditDebit,
                                      party.iban, uniqueReference, transactionReference, m.partyMatch,
                                      m.invoiceMatches, Some(m.matchedAmount), m.employeeMatch, m.expenseMatches)];
          }
        }
        assert transactions[|transactions|..] == [];
      } else {
        var uniqueReference := EntryUniqueReference(entry, ctx, f);
        if uniqueReference !in existing {
          if entry.cdtDbtInd.None? {
            return Failure(MissingIndicator);
          }
          var creditDebit := entry.cdtDbtInd.value;
          txns := txns + [InstructionRecord(|txns|, entry, ctx, creditDebit, uniqueReference, l)];
        }
      }
    }
    assert entries[|entries|..] == [];
    return Success(txns);
  }

  // ---- Properties of the import ---------------------------------------------------------

  /**
   * `out` starts with `txns`, and every record after them carries its own
   * position as `txid` and a unique reference not among `existing`.
   */
  ghost predicate Extends(txns: seq<Txn>, out: seq<Txn>, existing: set<string>) {
    |txns| <= |out| && out[..|txns|] == txns &&
    forall k :: |txns| <= k < |out| ==> out[k].txid == k && out[k].uniqueReference !in existing
  }

  lemma ExtendsTransitive(a: seq<Txn>, b: seq<Txn>, c: seq<Txn>, existing: set<string>)
    requires Extends(a, b, existing) && Extends(b, c, existing)
    ensures Extends(a, c, existing)
  {
    assert c[..|a|] == c[..|b|][..|a|];
  }

  /** How many of the details, the first numbered `count + 1`, have a unique reference that is not yet imported. */
  function FreshDetails(details: seq<TxDetail>, ctx: EntryContext, count: nat, existing: set<string>, f: Foreign): (n: nat)
    ensures n <= |details|
    decreases |details|
  {
    if details == [] then 0
    else
      var uniqueReference := DetailUniqueReference(details[0], ctx, count + 1, f);
      (if uniqueReference.Success? && uniqueReference.value !in existing then 1 else 0)
      + FreshDetails(details[1..], ctx, count + 1, existing, f)
  }

  /** A detail adds its record exactly when its reference is new. */
  lemma DetailStepExtends(txns: seq<Txn>, tx: TxDetail, e: Entry, ctx: EntryContext, count: nat,
                          l: Ledger, existing: set<string>, f: Foreign)
    requires DetailStep(txns, tx, e, ctx, count, l, existing, f).Success?
    ensures var out := DetailStep(txns, tx, e, ctx, count, l, existing, f).value;
            Extends(txns, out, existing) &&
            |out| == |txns| + (if DetailUniqueReference(tx, ctx, count, f).value in existing then 0 else 1)
  {
    var out := DetailStep(txns, tx, e, ctx, count, l, existing, f).value;
    assert out[..|txns|] == txns;
  }

  /** The details of an entry add one record per detail whose reference is new, numbered in order. */
  lemma {:induction false} DetailsFoldExtends(txns: seq<Txn>, details: seq<TxDetail>, e: Entry, ctx: EntryContext,
                                              count: nat, l: Ledger, existing: set<string>, f: Foreign)
    requires DetailsFold(txns, details, e, ctx, count, l, existing, f).Success?
    ensures var out := DetailsFold(txns, details, e, ctx, count, l, existing, f).value;
            Extends(txns, out, existing) && |out| == |txns| + FreshDetails(details, ctx, count, existing, f)
    decreases |details|
  {
    if details == [] {
      assert txns[..|txns|] == txns;
    } else {
      var next := DetailStep(txns, details[0], e, ctx, count + 1, l, existing, f).value;
      DetailStepExtends(txns, details[0], e, ctx, count + 1, l, existing, f);
      DetailsFoldExtends(next, details[1..], e, ctx, count + 1, l, existing, f);
      ExtendsTransitive(txns, next, DetailsFold(next, details[1..], e, ctx, count + 1, l, existing, f).value, existing);
    }
  }

  /**
   * An entry adds one record per detail with a new reference, or, without
   * details, at most one record.
   */
  lemma EntryStepExtends(txns: seq<Txn>, e: Entry, l: Ledger, existing: set<string>, f: Foreign)
    requires EntryStep(txns, e, l, existing, f).Success?
    ensures var out := EntryStep(txns, e, l, existing, f).value;
            Extends(txns, out, existing) &&
            (|e.details| > 0 ==> |out| == |txns| + FreshDetails(e.details, ReadEntryContext(e).value, 0, existing, f)) &&
            (|e.details| == 0 ==> |out| <= |txns| + 1)
  {
    var ctx := ReadEntryContext(e).value;
    var out := EntryStep(txns, e, l, existing, f).value;
    if |e.details| > 0 {
      DetailsFoldExtends(txns, e.details, e, ctx, 0, l, existing, f);
    } else {
      assert out[..|txns|] == txns;
    }
  }

  lemma {:induction false} EntriesFoldExtends(txns: seq<Txn>, entries: seq<Entry>, l: Ledger, existing: set<string>, f: Foreign)
    requires EntriesFold(txns, entries, l, existing, f).Success?
    ensures Extends(txns, EntriesFold(txns, entries, l, existing, f).value, existing)
    decreases |entries|
  {
    if entries == [] {
      assert txns[..|txns|] == txns;
    } else {
      var next := EntryStep(txns, entries[0], l, existing, f).value;
      EntryStepExtends(txns, entries[0], l, existing, f);
      EntriesFoldExtends(next, entries[1..], l, existing, f);
      ExtendsTransitive(txns, next, EntriesFold(next, entries[1..], l, existing, f).value, existing);
    }
  }

  /**
   * The records of an import are numbered 0, 1, 2, ... by position, and
   * none of them carries the reference number of a booked payment entry.
   */
  lemma ReadCamtRecords(entries: seq<Entry>, l: Ledger, existing: set<string>, f: Foreign)
    requires ReadCamt(entries, l, existing, f).Success?
    ensures var out := ReadCamt(entries, l, existing, f).value;
            forall k :: 0 <= k < |out| ==> out[k].txid == k && out[k].uniqueReference !in existing
  {
    EntriesFoldExtends([], entries, l, existing, f);
  }

  /**
   * Duplicates are only checked against booked payment entries, not within
   * the statement: two equal details with a new end-to-end id both yield a
   * record, with the same unique reference.
   */
  lemma RepeatedDetailKeptTwice(e: Entry, l: Ledger, existing: set<string>, f: Foreign)
    requires ReadEntryContext(e).Success? && |e.details| == 2 && e.details[0] == e.details[1]
    requires CreditDebit(e.details[0], e).Success?
    requires e.details[0].refsEndToEndId.Some? && e.details[0].refsEndToEndId.value !in existing
    ensures EntryStep([], e, l, existing, f).Success?
    ensures var out := EntryStep([], e, l, existing, f).value;
            |out| == 2 && out[0].uniqueReference == out[1].uniqueReference == e.details[0].refsEndToEndId.value
  {
    var ctx := ReadEntryContext(e).value;
    var d := e.details[0];
    var one := DetailStep([], d, e, ctx, 1, l, existing, f).value;
    assert e.details[1..][0] == d && e.details[1..][1..] == [];
    assert DetailsFold(one, e.details[1..], e, ctx, 1, l, existing, f) == DetailStep(one, d, e, ctx, 2, l, existing, f);
  }

  /** Importing the details again, once the new references are booked, adds nothing. */
  lemma {:induction false} DetailsFoldReimport(txns: seq<Txn>, details: seq<TxDetail>, e: Entry, ctx: EntryContext, count: nat,
                                               l: Ledger, existing: set<string>, f: Foreign, again: seq<Txn>, booked: set<string>)
    requires DetailsFold(txns, details, e, ctx, count, l, existing, f).Success?
    requires existing <= booked
    requires var out := DetailsFold(txns, details, e, ctx, count, l, existing, f).value;
             forall k :: |txns| <= k < |out| ==> out[k].uniqueReference in booked
    ensures DetailsFold(again, details, e, ctx, count, l, booked, f) == Success(again)
    decreases |details|
  {
    if details != [] {
      var next := DetailStep(txns, details[0], e, ctx, count + 1, l, existing, f).value;
      var out := DetailsFold(next, details[1..], e, ctx, count + 1, l, existing, f).value;
      DetailStepExtends(txns, details[0], e, ctx, count + 1, l, existing, f);
      DetailsFoldExtends(next, details[1..], e, ctx, count + 1, l, existing, f);
      var uniqueReference := DetailUniqueReference(details[0], ctx, count + 1, f).value;
      if uniqueReference !in existing {
        assert out[|txns|] == out[..|next|][|txns|] == next[|txns|];
      }
      assert DetailStep(again, details[0], e, ctx, count + 1, l, booked, f) == Success(again);
      DetailsFoldReimport(next, details[1..], e, ctx, count + 1, l, existing, f, again, booked);
    }
  }

  lemma EntryStepReimport(txns: seq<Txn>, e: Entry, l: Ledger, existing: set<string>, f: Foreign, again: seq<Txn>, booked: set<string>)
    requires EntryStep(txns, e, l, existing, f).Success?
    requires existing <= booked
    requires var out := EntryStep(txns, e, l, existing, f).value;
             forall k :: |txns| <= k < |out| ==> out[k].uniqueReference in booked
    ensures EntryStep(again, e, l, booked, f) == Success(again)
  {
    var ctx := ReadEntryContext(e).value;
    if |e.details| > 0 {
      DetailsFoldReimport(txns, e.details, e, ctx, 0, l, existing, f, again, booked);
    } else {
      var out := EntryStep(txns, e, l, existing, f).value;
      if EntryUniqueReference(e, ctx, f) !in existing {
        assert out[|txns|].uniqueReference == EntryUniqueReference(e, ctx, f);
      }
    }
  }

  lemma {:induction false} EntriesFoldReimport(txns: seq<Txn>, entries: seq<Entry>, l: Ledger, existing: set<string>, f: Foreign,
                                               again: seq<Txn>, booked: set<string>)
    requires EntriesFold(txns, entries, l, existing, f).Success?
    requires existing <= booked
    requires var out := EntriesFold(txns, entries, l, existing, f).value;
             forall k :: |txns| <= k < |out| ==> out[k].uniqueReference in booked
    ensures EntriesFold(again, entries, l, booked, f) == Success(again)
    decreases |entries|
  {
    if entries != [] {
      var next := EntryStep(txns, entries[0], l, existing, f).value;
      var out := EntriesFold(next, entries[1..], l, existing, f).value;
      EntryStepExtends(txns, entries[0], l, existing, f);
      EntriesFoldExtends(next, entries[1..], l, existing, f);
      forall k | |txns| <= k < |next| ensures next[k].uniqueReference in booked {
        assert next[k] == out[..|next|][k] == out[k];
      }
      EntryStepReimport(txns, entries[0], l, existing, f, again, booked);
      EntriesFoldReimport(next, entries[1..], l, existing, f, again, booked);
    }
  }

  /**
   * Importing a statement twice: once the payment entries of the first
   * import are booked under their unique references, the second import
   * yields no records.
   */
  lemma ReimportYieldsNothing(entries: seq<Entry>, l: Ledger, existing: set<string>, f: Foreign)
    requires ReadCamt(entries, l, existing, f).Success?
    ensures var out := ReadCamt(entries, l, existing, f).value;
            ReadCamt(entries, l, existing + (set k | 0 <= k < |out| :: out[k].uniqueReference), f) == Success([])
  {
    var out := ReadCamt(entries, l, existing, f).value;
    var booked := existing + (set k | 0 <= k < |out| :: out[k].uniqueReference);
    EntriesFoldReimport([], entries, l, existing, f, [], booked);
  }
}
