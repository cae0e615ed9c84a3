/**
 * The ledger documents the bank wizard queries, the queries themselves, and
 * the reference matcher: which open invoices and expense claims a
 * transaction's reference text names, which party it belongs to and how
 * much is matched. Also the two unique-match helpers `match_by_amount` and
 * `match_by_comment`.
 *
 * A table is a sequence of rows in the order the database returns them; a
 * query with filters keeps the rows that pass, in that order.
 */
module Matcher {
  import opened Wrappers
  import opened Text
  import opened Lists

  datatype Supplier = Supplier(name: string, supplierName: string, disabled: bool)
  datatype Customer = Customer(name: string, customerName: string, disabled: bool)
  datatype Employee = Employee(name: string, employeeName: string, status: string)

  /** `billNo` is "" when the invoice has no supplier bill number. */
  datatype PurchaseInvoice = PurchaseInvoice(
    name: string, supplier: string, docstatus: int, outstanding: int, grandTotal: int, billNo: string)

  datatype SalesInvoice = SalesInvoice(
    name: string, customer: string, docstatus: int, status: string, outstanding: int, grandTotal: int)

  datatype ExpenseClaim = ExpenseClaim(name: string, employee: string, docstatus: int, status: string, totalClaimed: int)

  /** A line of a payment proposal: the planned payment behind a `PMTINF-` instruction. */
  datatype ProposalPayment = ProposalPayment(
    parent: string, idx: int, receiver: string, addressLine1: string, addressLine2: string, iban: string, reference: string)

  /** The ledger tables the wizard reads while importing a statement. */
  datatype Ledger = Ledger(
    suppliers: seq<Supplier>,
    customers: seq<Customer>,
    employees: seq<Employee>,
    purchaseInvoices: seq<PurchaseInvoice>,
    salesInvoices: seq<SalesInvoice>,
    expenseClaims: seq<ExpenseClaim>,
    proposalPayments: seq<ProposalPayment>)

  /**
   * A document that a reference can name: its name, its supplier, customer
   * or employee, the amount it contributes when matched, and a secondary
   * text that is searched too ("" when there is none).
   */
  datatype Candidate = Candidate(name: string, party: string, amount: int, billNo: string)

  // ---- Queries -------------------------------------------------------------

  /** Active suppliers whose supplier name is exactly `partyName`. */
  function ActiveSuppliersNamed(l: Ledger, partyName: string): seq<string> {
    FilterMap(l.suppliers, (s: Supplier) => if s.supplierName == partyName && !s.disabled then Some(s.name) else None)
  }

  /** Suppliers, active or not, whose supplier name is exactly `partyName`. */
  function SuppliersNamed(l: Ledger, partyName: string): seq<string> {
    FilterMap(l.suppliers, (s: Supplier) => if s.supplierName == partyName then Some(s.name) else None)
  }

  /** Active customers whose customer name is exactly `partyName`. */
  function ActiveCustomersNamed(l: Ledger, partyName: string): seq<string> {
    FilterMap(l.customers, (c: Customer) => if c.customerName == partyName && !c.disabled then Some(c.name) else None)
  }

  /** Employees with status "active" whose employee name is exactly `partyName`. */
  function ActiveEmployeesNamed(l: Ledger, partyName: string): seq<string> {
    FilterMap(l.employees, (e: Employee) => if e.employeeName == partyName && e.status == "active" then Some(e.name) else None)
  }

  /** A purchase invoice is open: submitted and with something outstanding. */
  predicate IsOpenPurchaseInvoice(p: PurchaseInvoice, supplier: Option<string>) {
    p.docstatus == 1 && p.outstanding > 0 && (supplier.None? || p.supplier == supplier.value)
  }

  /** A purchase invoice as a candidate: matched by name or bill number, contributing its outstanding amount. */
  function PurchaseCandidate(p: PurchaseInvoice): Candidate {
    Candidate(p.name, p.supplier, p.outstanding, p.billNo)
  }

  function OpenPurchaseInvoice(supplier: Option<string>): PurchaseInvoice -> Option<Candidate> {
    (p: PurchaseInvoice) => if IsOpenPurchaseInvoice(p, supplier) then Some(PurchaseCandidate(p)) else None
  }

  /** Open purchase invoices, restricted to `supplier` when one is given. */
  function OpenPurchaseInvoices(l: Ledger, supplier: Option<string>): seq<Candidate> {
    FilterMap(l.purchaseInvoices, OpenPurchaseInvoice(supplier))
  }

  /** An expense claim is unpaid: submitted and in status "Unpaid". */
  predicate IsUnpaidExpenseClaim(e: ExpenseClaim) {
    e.docstatus == 1 && e.status == "Unpaid"
  }

  /** An expense claim as a candidate: matched by name, contributing the claimed total. */
  function ClaimCandidate(e: ExpenseClaim): Candidate {
    Candidate(e.name, e.employee, e.totalClaimed, "")
  }

  function UnpaidExpenseClaim(e: ExpenseClaim): Option<Candidate> {
    if IsUnpaidExpenseClaim(e) then Some(ClaimCandidate(e)) else None
  }

  /** Unpaid expense claims. */
  function UnpaidExpenseClaims(l: Ledger): seq<Candidate> {
    FilterMap(l.expenseClaims, UnpaidExpenseClaim)
  }

  /** A sales invoice as a candidate: matched by name, contributing its outstanding amount. */
  function SalesCandidate(s: SalesInvoice): Candidate {
    Candidate(s.name, s.customer, s.outstanding, "")
  }

  function OpenSalesInvoice(s: SalesInvoice): Option<Candidate> {
    if s.outstanding > 0 then Some(SalesCandidate(s)) else None
  }

  /** Sales invoices with something outstanding (no other filter). */
  function OpenSalesInvoices(l: Ledger): seq<Candidate> {
    FilterMap(l.salesInvoices, OpenSalesInvoice)
  }

  /** A sales invoice is unpaid: submitted and not in status "Paid". */
  predicate IsUnpaidSalesInvoice(s: SalesInvoice) {
    s.docstatus == 1 && s.status != "Paid"
  }

  /** `get_unpaid_sales_invoices_by_customer`: names of the unpaid sales invoices of `customer`. */
  function UnpaidSalesInvoicesByCustomer(l: Ledger, customer: string): seq<string> {
    FilterMap(l.salesInvoices, (s: SalesInvoice) => if IsUnpaidSalesInvoice(s) && s.customer == customer then Some(s.name) else None)
  }

  /** The query lists exactly the unpaid sales invoices of the customer. */
  lemma UnpaidSalesInvoicesByCustomerMember(l: Ledger, customer: string, n: string)
    ensures n in UnpaidSalesInvoicesByCustomer(l, customer) <==>
              exists i :: 0 <= i < |l.salesInvoices| && l.salesInvoices[i].name == n
                          && IsUnpaidSalesInvoice(l.salesInvoices[i]) && l.salesInvoices[i].customer == customer
  {
    FilterMapMember(l.salesInvoices,
      (s: SalesInvoice) => if IsUnpaidSalesInvoice(s) && s.customer == customer then Some(s.name) else None, n);
  }

  // ---- Unique-match helpers -----------------------------------------------

  predicate IsOpenForAmount(s: SalesInvoice, amount: int) {
    IsUnpaidSalesInvoice(s) && s.grandTotal == amount
  }

  function OpenForAmount(amount: int): SalesInvoice -> Option<string> {
    (s: SalesInvoice) => if IsOpenForAmount(s, amount) then Some(s.name) else None
  }

  /**
   * `match_by_amount`: the unpaid sales invoice whose grand total is
   * `amount`, provided there is exactly one; otherwise None.
   */
  function MatchByAmount(l: Ledger, amount: int): (r: Option<string>)
    ensures r.Some? ==> exists i :: 0 <= i < |l.salesInvoices| && IsOpenForAmount(l.salesInvoices[i], amount)
                           && l.salesInvoices[i].name == r.value
  {
    var open := FilterMap(l.salesInvoices, OpenForAmount(amount));
    if |open| == 1 then
      FilterMapHead(l.salesInvoices, OpenForAmount(amount));
      Some(open[0])
    else None
  }

  /** `match_by_amount` answers exactly when one unpaid sales invoice has that grand total. */
  lemma MatchByAmountUnique(l: Ledger, amount: int)
    ensures MatchByAmount(l, amount).Some? <==>
              exists i :: 0 <= i < |l.salesInvoices| && IsOpenForAmount(l.salesInvoices[i], amount)
                          && forall j :: 0 <= j < |l.salesInvoices| && IsOpenForAmount(l.salesInvoices[j], amount) ==> j == i
  {
    var s, f := l.salesInvoices, OpenForAmount(amount);
    FilterMapSingle(s, f);
    if i :| 0 <= i < |s| && IsOpenForAmount(s[i], amount)
            && forall j :: 0 <= j < |s| && IsOpenForAmount(s[j], amount) ==> j == i {
      forall j | Kept(s, f, j) ensures j == i {
        assert IsOpenForAmount(s[j], amount);
      }
      assert OnlyKept(s, f, i);
    }
    if |FilterMap(s, f)| == 1 {
      var i :| OnlyKept(s, f, i);
      forall j | 0 <= j < |s| && IsOpenForAmount(s[j], amount) ensures j == i {
        assert Kept(s, f, j);
      }
    }
  }

  predicate IsNamedIn(s: SalesInvoice, comment: string) {
    IsUnpaidSalesInvoice(s) && IsSubstring(s.name, comment)
  }

  function NamedIn(comment: string): SalesInvoice -> Option<string> {
    (s: SalesInvoice) => if IsNamedIn(s, comment) then Some(s.name) else None
  }

  /**
   * `match_by_comment`: the unpaid sales invoice whose name occurs in
   * `comment`, provided there is exactly one; otherwise None.
   */
  function MatchByComment(l: Ledger, comment: string): (r: Option<string>)
    ensures r.Some? ==> IsSubstring(r.value, comment)
    ensures r.Some? ==> exists i :: 0 <= i < |l.salesInvoices| && IsNamedIn(l.salesInvoices[i], comment)
                           && l.salesInvoices[i].name == r.value
  {
    var named := FilterMap(l.salesInvoices, NamedIn(comment));
    if |named| == 1 then
      FilterMapHead(l.salesInvoices, NamedIn(comment));
      Some(named[0])
    else None
  }

  /** `match_by_comment` answers exactly when the comment names one unpaid sales invoice. */
  lemma MatchByCommentUnique(l: Ledger, comment: string)
    ensures MatchByComment(l, comment).Some? <==>
              exists i :: 0 <= i < |l.salesInvoices| && IsNamedIn(l.salesInvoices[i], comment)
                          && forall j :: 0 <= j < |l.salesInvoices| && IsNamedIn(l.salesInvoices[j], comment) ==> j == i
  {
    var s, f := l.salesInvoices, NamedIn(comment);
    FilterMapSingle(s, f);
    if i :| 0 <= i < |s| && IsNamedIn(s[i], comment)
            && forall j :: 0 <= j < |s| && IsNamedIn(s[j], comment) ==> j == i {
      forall j | Kept(s, f, j) ensures j == i {
        assert IsNamedIn(s[j], comment);
      }
      assert OnlyKept(s, f, i);
    }
    if |FilterMap(s, f)| == 1 {
      var i :| OnlyKept(s, f, i);
      forall j | 0 <= j < |s| && IsNamedIn(s[j], comment) ensures j == i {
        assert Kept(s, f, j);
      }
    }
  }

  // ---- Reference matching ---------------------------------------------------

  /**
   * The reference names the candidate: its name occurs in the reference, or
   * its bill number does (its name again when it has no bill number).
   */
  predicate Hits(c: Candidate, reference: string) {
    IsSubstring(c.name, reference) || IsSubstring(if c.billNo != "" then c.billNo else c.name, reference)
  }

  /** The candidates the reference names, in candidate order. */
  function Matching(cs: seq<Candidate>, reference: string): (r: seq<Candidate>)
    ensures |r| <= |cs|
    decreases |cs|
  {
    if cs == [] then []
    else Matching(cs[..|cs| - 1], reference) + (if Hits(cs[|cs| - 1], reference) then [cs[|cs| - 1]] else [])
  }

  function Names(cs: seq<Candidate>): (r: seq<string>)
    ensures |r| == |cs|
    decreases |cs|
  {
    if cs == [] then [] else Names(cs[..|cs| - 1]) + [cs[|cs| - 1].name]
  }

  function Total(cs: seq<Candidate>): int
    decreases |cs|
  {
    if cs == [] then 0 else Total(cs[..|cs| - 1]) + cs[|cs| - 1].amount
  }

  /** The party of the last candidate, or `otherwise` when there is none. */
  function LastPartyOr(cs: seq<Candidate>, otherwise: Option<string>): Option<string> {
    if cs == [] then otherwise else Some(cs[|cs| - 1].party)
  }

  /** A candidate is matched exactly when it is a candidate and the reference names it. */
  lemma {:induction false} MatchingMember(cs: seq<Candidate>, reference: string, c: Candidate)
    ensures c in Matching(cs, reference) <==> c in cs && Hits(c, reference)
    decreases |cs|
  {
    if cs != [] {
      var init := cs[..|cs| - 1];
      MatchingMember(init, reference, c);
      assert cs == init + [cs[|cs| - 1]];
    }
  }

  /** A name is listed exactly when some listed candidate carries it. */
  lemma {:induction false} NamesMember(cs: seq<Candidate>, n: string)
    ensures n in Names(cs) <==> exists c :: c in cs && c.name == n
    decreases |cs|
  {
    if cs != [] {
      var init := cs[..|cs| - 1];
      NamesMember(init, n);
      assert cs == init + [cs[|cs| - 1]];
      if c :| c in cs && c.name == n {
        assert c in init || c == cs[|cs| - 1];
      }
    }
  }

  /** Matched documents that all have a positive amount add up to a positive amount. */
  lemma {:induction false} TotalPositive(cs: seq<Candidate>)
    requires forall k :: 0 <= k < |cs| ==> cs[k].amount > 0
    ensures cs == [] <==> Total(cs) <= 0
    ensures cs != [] ==> Total(cs) > 0
    decreases |cs|
  {
    if cs != [] {
      TotalPositive(cs[..|cs| - 1]);
    }
  }

  /**
   * One `for ... in possible_...` loop of the matcher: every candidate the
   * reference names is appended to the match list, overrides the party and
   * adds its amount.
   */
  method ScanCandidates(cs: seq<Candidate>, reference: string, party0: Option<string>, amount0: int)
    returns (names: seq<string>, party: Option<string>, amount: int)
    ensures names == Names(Matching(cs, reference))
    ensures party == LastPartyOr(Matching(cs, reference), party0)
    ensures amount == amount0 + Total(Matching(cs, reference))
  {
    names, party, amount := [], party0, amount0;
    var i := 0;
    while i < |cs|
      invariant 0 <= i <= |cs|
      invariant names == Names(Matching(cs[..i], reference))
      invariant party == LastPartyOr(Matching(cs[..i], reference), party0)
      invariant amount == amount0 + Total(Matching(cs[..i], reference))
    {
      var c := cs[i];
      assert cs[..i + 1][..i] == cs[..i];
      if Hits(c, reference) {
        var m := Matching(cs[..i], reference);
        assert Matching(cs[..i + 1], reference) == m + [c];
        assert (m + [c])[..|m|] == m;
        names := names + [c.name];
        party := Some(c.party);
        amount := amount + c.amount;
      } else {
        assert Matching(cs[..i + 1], reference) == Matching(cs[..i], reference);
      }
      i := i + 1;
    }
    assert cs[..i] == cs;
  }

  /** The first row of a query result, as `result[0]['name'] if result else None`. */
  function First(names: seq<string>): Option<string> {
    if names != [] then Some(names[0]) else None
  }

  /** What the matcher finds for one transaction. */
  datatype MatchResult = MatchResult(
    partyMatch: Option<string>,
    employeeMatch: Option<string>,
    invoiceMatches: Option<seq<string>>,
    expenseMatches: Option<seq<string>>,
    matchedAmount: int)

  /**
   * The "reset to None" step: an empty invoice list becomes None, and then
   * an empty expense list becomes None. When the invoice list is already
   * None, `len(None)` raises, the handler swallows it and the expense list
   * is left as it is.
   */
  function ResetEmpty(invoices: Option<seq<string>>, expenses: Option<seq<string>>): (r: (Option<seq<string>>, Option<seq<string>>))
    ensures r.0 != Some([])
    ensures r.1 == Some([]) <==> invoices.None? && expenses == Some([])
    ensures r.0.Some? ==> r.0 == invoices
    ensures r.1.Some? ==> r.1 == expenses
    ensures invoices.Some? && invoices.value != [] ==> r.0 == invoices
    ensures expenses.Some? && expenses.value != [] ==> r.1 == expenses
  {
    if invoices.None? then (invoices, expenses)
    else
      (if invoices.value == [] then None else invoices,
       if expenses.Some? && expenses.value == [] then None else expenses)
  }

  /**
   * The matcher as a function of the reference text, the indicator, the
   * counterparty name and the ledger. Debits search (the named supplier's,
   * else all) open purchase invoices and, independently, unpaid expense
   * claims; credits search sales invoices with something outstanding.
   */
  function ReferenceMatch(reference: string, creditDebit: string, partyName: string, l: Ledger): MatchResult {
    if creditDebit == "DBIT" then
      var supplier := First(ActiveSuppliersNamed(l, partyName));
      var invoices := OpenPurchaseInvoices(l, supplier);
      var invoiceHits := Matching(invoices, reference);
      var employee := First(ActiveEmployeesNamed(l, partyName));
      var claims := UnpaidExpenseClaims(l);
      var claimHits := Matching(claims, reference);
      var lists := ResetEmpty(if invoices != [] then Some(Names(invoiceHits)) else None,
                              if claims != [] then Some(Names(claimHits)) else None);
      MatchResult(LastPartyOr(invoiceHits, supplier), LastPartyOr(claimHits, employee),
                  lists.0, lists.1, Total(invoiceHits) + Total(claimHits))
    else
      var customer := First(ActiveCustomersNamed(l, partyName));
      var invoices := OpenSalesInvoices(l);
      var invoiceHits := Matching(invoices, reference);
      var lists := ResetEmpty(if invoices != [] then Some(Names(invoiceHits)) else None, None);
      MatchResult(LastPartyOr(invoiceHits, customer), None, lists.0, lists.1, Total(invoiceHits))
  }

  /** The matcher as the source runs it: the queries, then one scan loop per candidate list. */
  method MatchReference(reference: string, creditDebit: string, partyName: string, l: Ledger) returns (m: MatchResult)
    ensures m == ReferenceMatch(reference, creditDebit, partyName, l)
  {
    if creditDebit == "DBIT" {
      m := MatchDebit(reference, partyName, l);
    } else {
      m := MatchCredit(reference, creditDebit, partyName, l);
    }
  }

  /** The debit branch: supplier and purchase invoices, then employee and expense claims. */
  method MatchDebit(reference: string, partyName: string, l: Ledger) returns (m: MatchResult)
    ensures m == ReferenceMatch(reference, "DBIT", partyName, l)
  {
    var partyMatch: Option<string> := None;
    var employeeMatch: Option<string> := None;
    var invoiceMatches: Option<seq<string>> := None;
    var expenseMatches: Option<seq<string>> := None;
    var matchedAmount := 0;
    var suppliers := ActiveSuppliersNamed(l, partyName);
    if suppliers != [] {
      partyMatch := Some(suppliers[0]);
    }
    var invoices := OpenPurchaseInvoices(l, partyMatch);
    if invoices != [] {
      var names;
      names, partyMatch, matchedAmount := ScanCandidates(invoices, reference, partyMatch, matchedAmount);
      invoiceMatches := Some(names);
    }
    var employees := ActiveEmployeesNamed(l, partyName);
    if employees != [] {
      employeeMatch := Some(employees[0]);
    }
    var claims := UnpaidExpenseClaims(l);
    if claims != [] {
      var names;
      names, employeeMatch, matchedAmount := ScanCandidates(claims, reference, employeeMatch, matchedAmount);
      expenseMatches := Some(names);
    }
    assert partyMatch == LastPartyOr(Matching(invoices, reference), First(suppliers));
    assert employeeMatch == LastPartyOr(Matching(claims, reference), First(employees));
    assert invoiceMatches == if invoices != [] then Some(Names(Matching(invoices, reference))) else None;
    assert expenseMatches == if claims != [] then Some(Names(Matching(claims, reference))) else None;
    assert matchedAmount == Total(Matching(invoices, reference)) + Total(Matching(claims, reference));
    var lists := ResetEmpty(invoiceMatches, expenseMatches);
    m := MatchResult(partyMatch, employeeMatch, lists.0, lists.1, matchedAmount);
  }

  /** The credit branch: customer and sales invoices; expense claims are not searched. */
  method MatchCredit(reference: string, creditDebit: string, partyName: string, l: Ledger) returns (m: MatchResult)
    requires creditDebit != "DBIT"
    ensures m == ReferenceMatch(reference, creditDebit, partyName, l)
  {
    var partyMatch: Option<string> := None;
    var invoiceMatches: Option<seq<string>> := None;
    var matchedAmount := 0;
    var customers := ActiveCustomersNamed(l, partyName);
    if customers != [] {
      partyMatch := Some(customers[0]);
    }
    var invoices := OpenSalesInvoices(l);
    if invoices != [] {
      var names;
      names, partyMatch, matchedAmount := ScanCandidates(invoices, reference, partyMatch, matchedAmount);
      invoiceMatches := Some(names);
    }
    assert partyMatch == LastPartyOr(Matching(invoices, reference), First(customers));
    assert invoiceMatches == if invoices != [] then Some(Names(Matching(invoices, reference))) else None;
    assert matchedAmount == Total(Matching(invoices, reference));
    var lists := ResetEmpty(invoiceMatches, None);
    m := MatchResult(partyMatch, None, lists.0, lists.1, matchedAmount);
  }

  // ---- Properties of the matcher -------------------------------------------

  /** A name is in a scan's match list exactly when a candidate with that name is named by the reference. */
  lemma MatchedNameMember(cs: seq<Candidate>, reference: string, n: string)
    ensures n in Names(Matching(cs, reference)) <==> exists c :: c in cs && Hits(c, reference) && c.name == n
  {
    NamesMember(Matching(cs, reference), n);
    if c :| c in Matching(cs, reference) && c.name == n {
      MatchingMember(cs, reference, c);
    }
    if c :| c in cs && Hits(c, reference) && c.name == n {
      MatchingMember(cs, reference, c);
    }
  }

  /**
   * For a debit, a purchase invoice is matched exactly when it is open
   * (and belongs to the supplier found by name, when there is one) and the
   * reference contains its name or its bill number.
   */
  lemma PurchaseInvoiceMatched(reference: string, partyName: string, l: Ledger, n: string)
    ensures var m := ReferenceMatch(reference, "DBIT", partyName, l);
            var supplier := First(ActiveSuppliersNamed(l, partyName));
            (m.invoiceMatches.Some? && n in m.invoiceMatches.value) <==>
              exists i :: 0 <= i < |l.purchaseInvoices| && l.purchaseInvoices[i].name == n
                          && IsOpenPurchaseInvoice(l.purchaseInvoices[i], supplier)
                          && Hits(PurchaseCandidate(l.purchaseInvoices[i]), reference)
  {
    var supplier := First(ActiveSuppliersNamed(l, partyName));
    var pis, f := l.purchaseInvoices, OpenPurchaseInvoice(supplier);
    var cs := OpenPurchaseInvoices(l, supplier);
    var m := ReferenceMatch(reference, "DBIT", partyName, l);
    MatchedNameMember(cs, reference, n);
    if cs == [] {
      assert m.invoiceMatches.None?;
      FilterMapEmpty(pis, f);
      if i :| 0 <= i < |pis| && IsOpenPurchaseInvoice(pis[i], supplier) {
        assert Kept(pis, f, i);
      }
    } else {
      assert m.invoiceMatches.Some? ==> m.invoiceMatches.value == Names(Matching(cs, reference));
      if i :| 0 <= i < |pis| && pis[i].name == n && IsOpenPurchaseInvoice(pis[i], supplier)
              && Hits(PurchaseCandidate(pis[i]), reference) {
        FilterMapMember(pis, f, PurchaseCandidate(pis[i]));
      }
      if c :| c in cs && Hits(c, reference) && c.name == n {
        FilterMapMember(pis, f, c);
      }
    }
  }

  /** For a debit, an expense claim is matched exactly when it is unpaid and the reference contains its name. */
  lemma ExpenseClaimMatched(reference: string, partyName: string, l: Ledger, n: string)
    ensures var m := ReferenceMatch(reference, "DBIT", partyName, l);
            (m.expenseMatches.Some? && n in m.expenseMatches.value) <==>
              exists i :: 0 <= i < |l.expenseClaims| && l.expenseClaims[i].name == n
                          && IsUnpaidExpenseClaim(l.expenseClaims[i]) && IsSubstring(n, reference)
  {
    var ecs := l.expenseClaims;
    var cs := UnpaidExpenseClaims(l);
    var m := ReferenceMatch(reference, "DBIT", partyName, l);
    MatchedNameMember(cs, reference, n);
    if cs == [] {
      assert m.expenseMatches.None?;
      FilterMapEmpty(ecs, UnpaidExpenseClaim);
      if i :| 0 <= i < |ecs| && IsUnpaidExpenseClaim(ecs[i]) {
        assert Kept(ecs, UnpaidExpenseClaim, i);
      }
    } else {
      assert m.expenseMatches.Some? ==> m.expenseMatches.value == Names(Matching(cs, reference));
      if i :| 0 <= i < |ecs| && ecs[i].name == n && IsUnpaidExpenseClaim(ecs[i]) && IsSubstring(n, reference) {
        FilterMapMember(ecs, UnpaidExpenseClaim, ClaimCandidate(ecs[i]));
        assert Hits(ClaimCandidate(ecs[i]), reference);
      }
      if c :| c in cs && Hits(c, reference) && c.name == n {
        FilterMapMember(ecs, UnpaidExpenseClaim, c);
      }
    }
  }

  /**
   * For a credit, a sales invoice is matched exactly when it has something
   * outstanding and the reference contains its name; there are never
   * expense matches.
   */
  lemma SalesInvoiceMatched(reference: string, creditDebit: string, partyName: string, l: Ledger, n: string)
    requires creditDebit != "DBIT"
    ensures var m := ReferenceMatch(reference, creditDebit, partyName, l);
            m.expenseMatches.None? && m.employeeMatch.None? &&
            ((m.invoiceMatches.Some? && n in m.invoiceMatches.value) <==>
              exists i :: 0 <= i < |l.salesInvoices| && l.salesInvoices[i].name == n
                          && l.salesInvoices[i].outstanding > 0 && IsSubstring(n, reference))
  {
    var sis := l.salesInvoices;
    var cs := OpenSalesInvoices(l);
    var m := ReferenceMatch(reference, creditDebit, partyName, l);
    MatchedNameMember(cs, reference, n);
    if cs == [] {
      assert m.invoiceMatches.None?;
      FilterMapEmpty(sis, OpenSalesInvoice);
      if i :| 0 <= i < |sis| && sis[i].outstanding > 0 {
        assert Kept(sis, OpenSalesInvoice, i);
      }
    } else {
      assert m.invoiceMatches.Some? ==> m.invoiceMatches.value == Names(Matching(cs, reference));
      if i :| 0 <= i < |sis| && sis[i].name == n && sis[i].outstanding > 0 && IsSubstring(n, reference) {
        FilterMapMember(sis, OpenSalesInvoice, SalesCandidate(sis[i]));
        assert Hits(SalesCandidate(sis[i]), reference);
      }
      if c :| c in cs && Hits(c, reference) && c.name == n {
        FilterMapMember(sis, OpenSalesInvoice, c);
      }
    }
  }

  /** The last matched candidate: the party it carries and the last name in the match list. */
  lemma LastMatched(cs: seq<Candidate>, reference: string, otherwise: Option<string>)
    requires Matching(cs, reference) != []
    ensures var hits := Matching(cs, reference);
            var c := hits[|hits| - 1];
            c in cs && Hits(c, reference) && LastPartyOr(hits, otherwise) == Some(c.party)
            && Names(hits)[|hits| - 1] == c.name
  {
    var hits := Matching(cs, reference);
    MatchingMember(cs, reference, hits[|hits| - 1]);
  }

  /**
   * For a credit, the party is the customer of the last matched sales
   * invoice, whose name ends the match list; with no match it is the first
   * active customer of that name, if any.
   */
  lemma SalesPartyMatch(reference: string, creditDebit: string, partyName: string, l: Ledger)
    requires creditDebit != "DBIT"
    ensures var m := ReferenceMatch(reference, creditDebit, partyName, l);
            (m.invoiceMatches.None? ==> m.partyMatch == First(ActiveCustomersNamed(l, partyName))) &&
            (m.invoiceMatches.Some? ==>
               var names := m.invoiceMatches.value;
               names != [] &&
               exists i :: 0 <= i < |l.salesInvoices| && l.salesInvoices[i].name == names[|names| - 1]
                           && l.salesInvoices[i].outstanding > 0 && IsSubstring(names[|names| - 1], reference)
                           && m.partyMatch == Some(l.salesInvoices[i].customer))
  {
    var cs := OpenSalesInvoices(l);
    var hits := Matching(cs, reference);
    var m := ReferenceMatch(reference, creditDebit, partyName, l);
    if hits != [] {
      LastMatched(cs, reference, First(ActiveCustomersNamed(l, partyName)));
      var c := hits[|hits| - 1];
      FilterMapMember(l.salesInvoices, OpenSalesInvoice, c);
      var i :| 0 <= i < |l.salesInvoices| && OpenSalesInvoice(l.salesInvoices[i]) == Some(c);
      assert Hits(c, reference);
    } else {
      assert Names(hits) == [];
    }
  }

  /**
   * For a debit, the party is the supplier of the last matched purchase
   * invoice, whose name ends the match list; with no match it is the first
   * active supplier of that name, if any.
   */
  lemma PurchasePartyMatch(reference: string, partyName: string, l: Ledger)
    ensures var m := ReferenceMatch(reference, "DBIT", partyName, l);
            var supplier := First(ActiveSuppliersNamed(l, partyName));
            (m.invoiceMatches.None? ==> m.partyMatch == supplier) &&
            (m.invoiceMatches.Some? ==>
               var names := m.invoiceMatches.value;
               names != [] &&
               exists i :: 0 <= i < |l.purchaseInvoices| && l.purchaseInvoices[i].name == names[|names| - 1]
                           && IsOpenPurchaseInvoice(l.purchaseInvoices[i], supplier)
                           && Hits(PurchaseCandidate(l.purchaseInvoices[i]), reference)
                           && m.partyMatch == Some(l.purchaseInvoices[i].supplier))
  {
    var supplier := First(ActiveSuppliersNamed(l, partyName));
    var cs := OpenPurchaseInvoices(l, supplier);
    var hits := Matching(cs, reference);
    var m := ReferenceMatch(reference, "DBIT", partyName, l);
    if hits != [] {
      LastMatched(cs, reference, supplier);
      var c := hits[|hits| - 1];
      FilterMapMember(l.purchaseInvoices, OpenPurchaseInvoice(supplier), c);
      var i :| 0 <= i < |l.purchaseInvoices| && OpenPurchaseInvoice(supplier)(l.purchaseInvoices[i]) == Some(c);
    } else {
      assert Names(hits) == [];
    }
  }

  /**
   * For a credit, the matched amount is positive exactly when some invoice
   * matched, since every candidate has something outstanding; otherwise it
   * is zero.
   */
  lemma CreditMatchedAmount(reference: string, creditDebit: string, partyName: string, l: Ledger)
    requires creditDebit != "DBIT"
    ensures var m := ReferenceMatch(reference, creditDebit, partyName, l);
            (m.matchedAmount > 0 <==> m.invoiceMatches.Some?) && (m.invoiceMatches.None? ==> m.matchedAmount == 0)
  {
    var cs := OpenSalesInvoices(l);
    var hits := Matching(cs, reference);
    forall k | 0 <= k < |hits| ensures hits[k].amount > 0 {
      MatchingMember(cs, reference, hits[k]);
      FilterMapMember(l.salesInvoices, OpenSalesInvoice, hits[k]);
    }
    TotalPositive(hits);
  }

  /**
   * The expense list is left as an empty list (not None) exactly when the
   * debit found no open purchase invoice to search, some unpaid expense
   * claim to search, and no claim matched.
   */
  lemma EmptyExpenseListKept(reference: string, partyName: string, l: Ledger)
    ensures var m := ReferenceMatch(reference, "DBIT", partyName, l);
            m.invoiceMatches != Some([]) &&
            (m.expenseMatches == Some([]) <==>
               OpenPurchaseInvoices(l, First(ActiveSuppliersNamed(l, partyName))) == []
               && UnpaidExpenseClaims(l) != [] && Matching(UnpaidExpenseClaims(l), reference) == [])
  {
  }

  /**
   * A credit whose reference contains the name of the only sales invoice,
   * which has something outstanding, matches that invoice, its customer and
   * its outstanding amount.
   */
  lemma SingleSalesInvoiceNamed(before: string, after: string, creditDebit: string, partyName: string, l: Ledger)
    requires creditDebit != "DBIT"
    requires |l.salesInvoices| == 1 && l.salesInvoices[0].outstanding > 0
    ensures var si := l.salesInvoices[0];
            var m := ReferenceMatch(before + si.name + after, creditDebit, partyName, l);
            m.invoiceMatches == Some([si.name]) && m.matchedAmount == si.outstanding && m.partyMatch == Some(si.customer)
  {
    var si := l.salesInvoices[0];
    var reference := before + si.name + after;
    var c := SalesCandidate(si);
    SubstringOfConcat(si.name, before, after);
    assert Hits(c, reference);
    assert OpenSalesInvoices(l) == [c];
    assert [c][..0] == [];
    assert Matching([c], reference) == [c];
    assert Names([c]) == [si.name];
    assert Total([c]) == si.outstanding;
  }
}
