/**
 * Booking a matched transaction: `make_payment_entry` builds and inserts a
 * payment entry of type Receive, Pay or Internal Transfer, then
 * `create_reference` allocates it against each referenced invoice or
 * expense claim in turn, lowering the entry's unallocated amount by what it
 * allocates; on request the entry is submitted.
 *
 * Amounts are integers (hundredths). The database reads become parameters:
 * the company of each account, the payable account of the company, and the
 * amounts of the referenced documents keyed by (doctype, name).
 */
module Payment {
  import opened Wrappers
  import opened Text

  /** The amounts `create_reference` reads from a referenced document. */
  datatype DocAmounts = DocAmounts(baseGrandTotal: int, outstanding: int, totalClaimed: int)

  /** A row of a payment entry's references table. */
  datatype Allocation = Allocation(
    referenceDoctype: string, referenceName: string,
    totalAmount: int, outstandingAmount: int, allocatedAmount: int)

  datatype PaymentError =
    | NoPaymentType     // `frappe.throw`: the payment type is not one of the three
    | MissingDocument   // the referenced document does not exist, so its amounts are None and comparing them raises

  /** Python truthiness of an optional string argument. */
  predicate Truthy(s: Option<string>) {
    s.Some? && s.value != ""
  }

  /** The amount allocated to a document: what was paid, but no more than is outstanding. */
  function Allocate(paid: int, outstanding: int): (a: int)
    ensures a <= paid && a <= outstanding
    ensures a == paid || a == outstanding
  {
    if paid > outstanding then outstanding else paid
  }

  /**
   * The reference row for a document: an invoice type (one whose name
   * contains "Invoice") contributes its base grand total and outstanding
   * amount, any other type (an expense claim) its claimed total as both.
   */
  function ReferenceAllocation(paid: int, invoiceReference: string, invoiceType: string, doc: DocAmounts): (a: Allocation)
    ensures a.referenceDoctype == invoiceType && a.referenceName == invoiceReference
    ensures IsSubstring("Invoice", invoiceType) ==> a.totalAmount == doc.baseGrandTotal && a.outstandingAmount == doc.outstanding
    ensures !IsSubstring("Invoice", invoiceType) ==> a.totalAmount == doc.totalClaimed && a.outstandingAmount == doc.totalClaimed
    ensures a.allocatedAmount <= paid && a.allocatedAmount <= a.outstandingAmount
    ensures a.allocatedAmount == paid || a.allocatedAmount == a.outstandingAmount
  {
    if IsSubstring("Invoice", invoiceType) then
      Allocation(invoiceType, invoiceReference, doc.baseGrandTotal, doc.outstanding, Allocate(paid, doc.outstanding))
    else
      Allocation(invoiceType, invoiceReference, doc.totalClaimed, doc.totalClaimed, Allocate(paid, doc.totalClaimed))
  }

  /** The sum of the allocated amounts. */
  function AllocatedTotal(allocations: seq<Allocation>): int {
    if allocations == [] then 0
    else allocations[0].allocatedAmount + AllocatedTotal(allocations[1..])
  }

  /** The sum of the outstanding amounts. */
  function OutstandingTotal(allocations: seq<Allocation>): int {
    if allocations == [] then 0
    else allocations[0].outstandingAmount + OutstandingTotal(allocations[1..])
  }

  lemma {:induction false} AllocatedTotalAppend(allocations: seq<Allocation>, a: Allocation)
    ensures AllocatedTotal(allocations + [a]) == AllocatedTotal(allocations) + a.allocatedAmount
  {
    if allocations != [] {
      assert (allocations + [a])[1..] == allocations[1..] + [a];
      AllocatedTotalAppend(allocations[1..], a);
    }
  }

  /**
   * The reference rows `make_payment_entry` creates for the referenced
   * documents, in list order, up to the first document that does not exist.
   * Every row allocates against the full paid amount.
   */
  function PlannedAllocations(paid: int, references: seq<string>, referenceType: string,
                              docs: map<(string, string), DocAmounts>): (r: seq<Allocation>)
    ensures |r| <= |references|
    ensures forall k :: 0 <= k < |r| ==>
              (referenceType, references[k]) in docs &&
              r[k] == ReferenceAllocation(paid, references[k], referenceType, docs[(referenceType, references[k])])
    ensures |r| < |references| ==> (referenceType, references[|r|]) !in docs
    decreases |references|
  {
    if references == [] || (referenceType, references[0]) !in docs then []
    else
      [ReferenceAllocation(paid, references[0], referenceType, docs[(referenceType, references[0])])]
      + PlannedAllocations(paid, references[1..], referenceType, docs)
  }

  /** The rows from the `k`-th document on: none when it does not exist. */
  lemma PlannedAllocationsStop(paid: int, references: seq<string>, k: nat, referenceType: string,
                               docs: map<(string, string), DocAmounts>)
    requires k < |references| && (referenceType, references[k]) !in docs
    ensures PlannedAllocations(paid, references[k..], referenceType, docs) == []
  {
    assert references[k..][0] == references[k];
  }

  /** The rows from the `k`-th document on, when it exists: its row, then the rest. */
  lemma PlannedAllocationsStep(paid: int, references: seq<string>, k: nat, referenceType: string,
                               docs: map<(string, string), DocAmounts>, before: seq<Allocation>)
    requires k < |references| && (referenceType, references[k]) in docs
    ensures before + PlannedAllocations(paid, references[k..], referenceType, docs)
            == (before + [ReferenceAllocation(paid, references[k], referenceType, docs[(referenceType, references[k])])])
               + PlannedAllocations(paid, references[k + 1..], referenceType, docs)
  {
    assert references[k..][0] == references[k] && references[k..][1..] == references[k + 1..];
  }

  /** Each reference row allocates at most its document's outstanding amount, so in total at most their sum. */
  lemma {:induction false} AllocatedWithinOutstanding(allocations: seq<Allocation>)
    requires forall k :: 0 <= k < |allocations| ==> allocations[k].allocatedAmount <= allocations[k].outstandingAmount
    ensures AllocatedTotal(allocations) <= OutstandingTotal(allocations)
  {
    if allocations != [] {
      AllocatedWithinOutstanding(allocations[1..]);
    }
  }

  /** The rows `make_payment_entry` plans allocate in total at most what their documents have outstanding. */
  lemma {:induction false} PlannedWithinOutstanding(paid: int, references: seq<string>, referenceType: string,
                                                    docs: map<(string, string), DocAmounts>)
    ensures var allocations := PlannedAllocations(paid, references, referenceType, docs);
            AllocatedTotal(allocations) <= OutstandingTotal(allocations)
  {
    AllocatedWithinOutstanding(PlannedAllocations(paid, references, referenceType, docs));
  }

  /**
   * Because each row allocates against the full paid amount and not the
   * remainder, two fully outstanding invoices of the paid amount each leave
   * the payment's unallocated amount at minus the paid amount.
   */
  lemma FullAmountAllocatedTwice(paid: int, invoiceType: string, first: string, second: string,
                                 docs: map<(string, string), DocAmounts>)
    requires paid > 0 && IsSubstring("Invoice", invoiceType)
    requires (invoiceType, first) in docs && docs[(invoiceType, first)].outstanding == paid
    requires (invoiceType, second) in docs && docs[(invoiceType, second)].outstanding == paid
    ensures var allocations := PlannedAllocations(paid, [first, second], invoiceType, docs);
            |allocations| == 2 && paid - AllocatedTotal(allocations) == -paid < 0
  {
    var references := [first, second];
    var a1 := ReferenceAllocation(paid, first, invoiceType, docs[(invoiceType, first)]);
    var a2 := ReferenceAllocation(paid, second, invoiceType, docs[(invoiceType, second)]);
    assert a1.allocatedAmount == paid && a2.allocatedAmount == paid;
    assert references[1..] == [second] && references[1..][1..] == [];
    assert PlannedAllocations(paid, references[1..], invoiceType, docs) == [a2];
    assert PlannedAllocations(paid, references, invoiceType, docs) == [a1, a2];
    assert [a1, a2][1..] == [a2] && [a2][1..] == [];
    assert AllocatedTotal([a1, a2]) == paid + AllocatedTotal([a2]);
  }

  /**
   * The reference type of the rows: expense claims for a payment to an
   * employee, purchase invoices for any other payment, sales invoices for
   * receipts and internal transfers; no type for anything else.
   */
  function ReferenceType(paymentType: Option<string>, partyType: Option<string>): (r: Option<string>)
    ensures r.Some? <==> paymentType in {Some("Receive"), Some("Pay"), Some("Internal Transfer")}
    ensures r == Some("Expense Claim") <==> paymentType == Some("Pay") && partyType == Some("Employee")
    ensures r == Some("Purchase Invoice") <==> paymentType == Some("Pay") && partyType != Some("Employee")
    ensures r == Some("Sales Invoice") <==> paymentType == Some("Receive") || paymentType == Some("Internal Transfer")
  {
    if paymentType == Some("Receive") then Some("Sales Invoice")
    else if paymentType == Some("Pay") then
      (if partyType == Some("Employee") then Some("Expense Claim") else Some("Purchase Invoice"))
    else if paymentType == Some("Internal Transfer") then Some("Sales Invoice")
    else None
  }

  /** Purchase and sales invoices are invoice types: their rows take the invoice's amounts. */
  lemma InvoiceTypesNameInvoice(prefix: string)
    ensures IsSubstring("Invoice", prefix + "Invoice")
  {
    SubstringOfConcat("Invoice", prefix, "");
    assert prefix + "Invoice" + "" == prefix + "Invoice";
  }

  /** An expense claim is not an invoice type: its rows take the claimed total. */
  lemma ExpenseClaimIsNoInvoice()
    ensures !IsSubstring("Invoice", "Expense Claim")
  {
    MissingHeadNoSubstring("Invoice", "Expense Claim");
  }

  /**
   * Rows for a payment to an employee take the claimed total of the expense
   * claim as outstanding; rows of every other payment type take the
   * invoice's outstanding amount.
   */
  lemma ReferenceTypeSelectsAmounts(paymentType: Option<string>, partyType: Option<string>, paid: int, name: string, doc: DocAmounts)
    requires ReferenceType(paymentType, partyType).Some?
    ensures var a := ReferenceAllocation(paid, name, ReferenceType(paymentType, partyType).value, doc);
            if paymentType == Some("Pay") && partyType == Some("Employee")
            then a.outstandingAmount == doc.totalClaimed && a.allocatedAmount == Allocate(paid, doc.totalClaimed)
            else a.outstandingAmount == doc.outstanding && a.allocatedAmount == Allocate(paid, doc.outstanding)
  {
    var t := ReferenceType(paymentType, partyType).value;
    if paymentType == Some("Pay") && partyType == Some("Employee") {
      assert t == "Expense Claim";
      ExpenseClaimIsNoInvoice();
    } else if paymentType == Some("Pay") {
      assert t == "Purchase Invoice";
      InvoiceTypesNameInvoice("Purchase ");
      assert "Purchase " + "Invoice" == t;
    } else {
      assert t == "Sales Invoice";
      InvoiceTypesNameInvoice("Sales ");
      assert "Sales " + "Invoice" == t;
    }
  }

  /**
   * The company of the entry: the one given, else the company of the
   * account paid from, else of the account paid to; an account the map
   * does not know has no company.
   */
  function DeriveCompany(company: Option<string>, paidFrom: Option<string>, paidTo: Option<string>,
                         accountCompany: map<string, string>): (r: Option<string>)
    ensures Truthy(company) ==> r == company
    ensures !Truthy(company) && Truthy(paidFrom) ==>
              r == (if paidFrom.value in accountCompany then Some(accountCompany[paidFrom.value]) else None)
    ensures !Truthy(company) && !Truthy(paidFrom) && Truthy(paidTo) ==>
              r == (if paidTo.value in accountCompany then Some(accountCompany[paidTo.value]) else None)
    ensures !Truthy(company) && !Truthy(paidFrom) && !Truthy(paidTo) ==> r == company
  {
    if Truthy(company) then company
    else if Truthy(paidFrom) then
      (if paidFrom.value in accountCompany then Some(accountCompany[paidFrom.value]) else None)
    else if Truthy(paidTo) then
      (if paidTo.value in accountCompany then Some(accountCompany[paidTo.value]) else None)
    else company
  }

  /**
   * The account paid to: for an employee party the company's payable
   * account when there is one, else the given account; otherwise the given
   * account, which a payment of type Pay does not carry.
   */
  function EntryPaidTo(paymentType: string, partyType: Option<string>, paidTo: Option<string>, payableAccount: Option<string>): (r: Option<string>)
    ensures partyType == Some("Employee") && Truthy(payableAccount) ==> r == payableAccount
    ensures partyType == Some("Employee") && !Truthy(payableAccount) ==> r == paidTo
    ensures partyType != Some("Employee") && paymentType == "Pay" ==> r.None?
    ensures partyType != Some("Employee") && paymentType != "Pay" ==> r == paidTo
  {
    if partyType == Some("Employee") then (if Truthy(payableAccount) then payableAccount else paidTo)
    else if paymentType == "Pay" then None
    else paidTo
  }

  /** A payment entry once inserted: its fixed fields and the ones `create_reference` and `submit` change. */
  class PaymentEntry {
    const name: string
    const paymentType: string
    const partyType: Option<string>
    const party: Option<string>
    const paidFrom: Option<string>
    const paidTo: Option<string>
    const paidAmount: int
    const receivedAmount: int
    const referenceNo: string
    const date: string
    const remarks: Option<string>
    const company: Option<string>
    const exchangeRate: real
    var unallocated: int
    var references: seq<Allocation>
    var submitted: bool

    /** What has not been allocated is the paid amount less every row's allocation. */
    ghost predicate Valid()
      reads this
    {
      unallocated == paidAmount - AllocatedTotal(references)
    }

    /** `insert`: a new entry without references, its whole paid amount unallocated. */
    constructor Insert(name: string, paymentType: string, partyType: Option<string>, party: Option<string>,
                       paidFrom: Option<string>, paidTo: Option<string>, amount: int, referenceNo: string,
                       date: string, remarks: Option<string>, company: Option<string>, exchangeRate: real)
      ensures this.name == name && this.paymentType == paymentType && this.partyType == partyType && this.party == party
      ensures this.paidFrom == paidFrom && this.paidTo == paidTo
      ensures paidAmount == amount && receivedAmount == amount && this.referenceNo == referenceNo && this.date == date
      ensures this.remarks == remarks && this.company == company && this.exchangeRate == exchangeRate
      ensures unallocated == amount && references == [] && !submitted
      ensures Valid()
    {
      this.name := name;
      this.paymentType := paymentType;
      this.partyType := partyType;
      this.party := party;
      this.paidFrom := paidFrom;
      this.paidTo := paidTo;
      this.paidAmount := amount;
      this.receivedAmount := amount;
      this.referenceNo := referenceNo;
      this.date := date;
      this.remarks := remarks;
      this.company := company;
      this.exchangeRate := exchangeRate;
      unallocated := amount;
      references := [];
      submitted := false;
    }

    /**
     * `create_reference`: adds the row for a document, allocating against
     * the full paid amount, and lowers the unallocated amount by the
     * allocation. A document that does not exist raises and changes nothing.
     */
    method CreateReference(invoiceReference: string, invoiceType: string, docs: map<(string, string), DocAmounts>)
        returns (r: Result<Allocation, PaymentError>)
      requires Valid()
      modifies this
      ensures Valid()
      ensures (invoiceType, invoiceReference) !in docs ==> r == Failure(MissingDocument) && unchanged(this)
      ensures (invoiceType, invoiceReference) in docs ==>
                r == Success(ReferenceAllocation(paidAmount, invoiceReference, invoiceType, docs[(invoiceType, invoiceReference)])) &&
                references == old(references) + [r.value] &&
                unallocated == old(unallocated) - r.value.allocatedAmount &&
                submitted == old(submitted)
    {
      if (invoiceType, invoiceReference) !in docs {
        return Failure(MissingDocument);
      }
      var allocation := ReferenceAllocation(paidAmount, invoiceReference, invoiceType, docs[(invoiceType, invoiceReference)]);
      AllocatedTotalAppend(references, allocation);
      references := references + [allocation];
      unallocated := unallocated - allocation.allocatedAmount;
      return Success(allocation);
    }

    /**
     * The loop of `make_payment_entry`: one `create_reference` per document,
     * in list order, stopping at the first that raises.
     */
    method CreateReferences(names: seq<string>, referenceType: string, docs: map<(string, string), DocAmounts>)
        returns (r: Result<(), PaymentError>)
      requires Valid()
      modifies this
      ensures Valid() && submitted == old(submitted)
      ensures references == old(references) + PlannedAllocations(paidAmount, names, referenceType, docs)
      ensures r.Success? <==> |PlannedAllocations(paidAmount, names, referenceType, docs)| == |names|
      ensures r.Failure? ==> r.error == MissingDocument
    {
      ghost var initial := references;
      var k := 0;
      while k < |names|
        invariant 0 <= k <= |names|
        invariant Valid() && submitted == old(submitted)
        invariant |references| == |initial| + k
        invariant initial + PlannedAllocations(paidAmount, names, referenceType, docs)
                  == references + PlannedAllocations(paidAmount, names[k..], referenceType, docs)
      {
        ghost var before := references;
        var created := CreateReference(names[k], referenceType, docs);
        if created.Failure? {
          PlannedAllocationsStop(paidAmount, names, k, referenceType, docs);
          return Failure(created.error);
        }
        PlannedAllocationsStep(paidAmount, names, k, referenceType, docs, before);
        k := k + 1;
      }
      assert names[k..] == [];
      return Success(());
    }

    /** `submit`: marks the entry submitted and changes nothing else. */
    method Submit()
      modifies this
      ensures submitted && references == old(references) && unallocated == old(unallocated)
    {
      submitted := true;
    }
  }

  /** The fixed fields of a new entry agree with the arguments `make_payment_entry` was given. */
  ghost predicate BuiltFrom(entry: PaymentEntry, name: string, amount: int, date: string, referenceNo: string,
                            paidFrom: Option<string>, paidTo: Option<string>, paymentType: string,
                            party: Option<string>, partyType: Option<string>, remarks: Option<string>,
                            exchangeRate: real, company: Option<string>, payableAccount: Option<string>)
  {
    entry.name == name && entry.paymentType == paymentType &&
    entry.paidAmount == amount && entry.receivedAmount == amount &&
    entry.referenceNo == referenceNo && entry.date == date && entry.remarks == remarks &&
    entry.company == company && entry.exchangeRate == exchangeRate &&
    entry.paidFrom == (if paymentType == "Receive" then None else paidFrom) &&
    entry.paidTo == EntryPaidTo(paymentType, partyType, paidTo, payableAccount) &&
    entry.partyType == (if paymentType == "Internal Transfer" then None else partyType) &&
    entry.party == (if paymentType == "Internal Transfer" then None else party)
  }

  /**
   * `make_payment_entry`: an entry of a known type is inserted under `name`
   * with the derived company, then referenced against each document in
   * list order; the first missing document raises, leaving the entry with
   * the rows made so far. Only a fully referenced entry is submitted, and
   * only on request. An unknown type raises before anything is inserted.
   */
  method MakePaymentEntry(name: string, amount: int, date: string, referenceNo: string,
                          paidFrom: Option<string>, paidTo: Option<string>, paymentType: Option<string>,
                          party: Option<string>, partyType: Option<string>, references: seq<string>,
                          remarks: Option<string>, autoSubmit: bool, exchangeRate: real, company: Option<string>,
                          accountCompany: map<string, string>, payableAccount: Option<string>,
                          docs: map<(string, string), DocAmounts>)
      returns (entry: PaymentEntry?, r: Result<string, PaymentError>)
    ensures entry == null <==> ReferenceType(paymentType, partyType).None?
    ensures entry == null ==> r == Failure(NoPaymentType)
    ensures entry != null ==>
              var referenceType := ReferenceType(paymentType, partyType).value;
              fresh(entry) && entry.Valid() &&
              BuiltFrom(entry, name, amount, date, referenceNo, paidFrom, paidTo, paymentType.value, party, partyType,
                        remarks, exchangeRate, DeriveCompany(company, paidFrom, paidTo, accountCompany), payableAccount) &&
              entry.references == PlannedAllocations(amount, references, referenceType, docs) &&
              (r.Success? <==> |entry.references| == |references|) &&
              (r.Success? ==> r.value == name && entry.submitted == autoSubmit) &&
              (r.Failure? ==> r.error == MissingDocument && !entry.submitted)
  {
    var referenceType := ReferenceType(paymentType, partyType);
    var entryCompany := DeriveCompany(company, paidFrom, paidTo, accountCompany);
    if referenceType.None? {
      return null, Failure(NoPaymentType);
    }
    var kind := paymentType.value;
    entry := new PaymentEntry.Insert(
      name, kind,
      if kind == "Internal Transfer" then None else partyType,
      if kind == "Internal Transfer" then None else party,
      if kind == "Receive" then None else paidFrom,
      EntryPaidTo(kind, partyType, paidTo, payableAccount),
      amount, referenceNo, date, remarks, entryCompany, exchangeRate);
    var created := entry.CreateReferences(references, referenceType.value, docs);
    if created.Failure? {
      return entry, Failure(created.error);
    }
    if autoSubmit {
      entry.Submit();
    }
    return entry, Success(name);
  }
}
