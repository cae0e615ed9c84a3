/**
 * The parts of a camt.053 Bank-to-Customer Statement (ISO 20022) that the
 * bank wizard reads, and the per-field fallback chains that turn one booking
 * entry (`Ntry`) and its transaction details (`TxDtls`) into the fields of a
 * transaction record.
 *
 * The source looks tags up case-insensitively anywhere below a node and a
 * lookup of a missing tag raises; here every such lookup is an `Option`
 * field whose value is the element's text.
 */
module Camt {
  import opened Wrappers
  import opened Text

  /**
   * An `Amt` element: its raw text, what `float()` makes of that text (in
   * hundredths of the currency unit; None when `float()` raises) and its
   * `Ccy` attribute (None when the attribute is missing).
   */
  datatype Amt = Amt(text: string, value: Option<int>, ccy: Option<string>)

  /**
   * A `Cdtr` or `Dbtr` block of `RltdPties`: name, structured postal
   * address fields, country and the list of unstructured `AdrLine`s.
   */
  datatype Party = Party(
    nm: Option<string>,
    strtNm: Option<string>,
    bldgNb: Option<string>,
    pstCd: Option<string>,
    twnNm: Option<string>,
    ctry: Option<string>,
    adrLines: seq<string>)

  /** A `RltdPties` block: its creditor and its debtor, each possibly missing. */
  datatype RelatedParties = RelatedParties(cdtr: Option<Party>, dbtr: Option<Party>)

  /** A `RmtInf` block: the structured creditor reference `Strd/CdtrRefInf/Ref` and the unstructured `Ustrd`. */
  datatype Remittance = Remittance(strdRef: Option<string>, ustrd: Option<string>)

  /** One `TxDtls` element. `amt` and `nm` are the first such tags anywhere inside it. */
  datatype TxDetail = TxDetail(
    cdtDbtInd: Option<string>,
    refsEndToEndId: Option<string>,
    txId: Option<string>,
    pmtInfId: Option<string>,
    txAmt: Option<Amt>,
    amt: Option<Amt>,
    nm: Option<string>,
    rltdPties: Option<RelatedParties>,
    cdtrAcctIban: Option<string>,
    dbtrAcctIban: Option<string>,
    rmtInf: Option<Remittance>,
    endToEndId: Option<string>,
    addtlTxInf: Option<string>)

  /** One `Ntry` element: `BookgDt/Dt`, its first `Amt`, references, indicator and its `TxDtls` in document order. */
  datatype Entry = Entry(
    bookgDt: Option<string>,
    amt: Option<Amt>,
    acctSvcrRef: Option<string>,
    cdtDbtInd: Option<string>,
    txId: Option<string>,
    pmtInfId: Option<string>,
    details: seq<TxDetail>)

  /**
   * Foreign code the wizard calls: the hex digest of `hashlib.md5` of a
   * string, and Python's `"{0}".format(x)` of a float amount.
   */
  datatype Foreign = Foreign(md5Hex: string -> string, floatText: int -> string)

  /** The exceptions `read_camt_transactions` lets escape. */
  datatype CamtError =
    | MissingBookingDate   // no `BookgDt/Dt` in an entry
    | MissingEntryAmount   // no entry `Amt`, not a number, or no `Ccy`
    | MissingIndicator     // no `CdtDbtInd` where one is required
    | MissingHashInput     // hash fallback reached without `Amt` or `Nm`

  /** What the source reads from an entry before looking at its details. */
  datatype EntryContext = EntryContext(date: string, amount: int, currency: string, acctSvcrRef: string)

  /**
   * Booking date, entry amount and currency (all required: a missing one
   * raises), and the entry's account-service reference ("" when missing).
   */
  function ReadEntryContext(e: Entry): (r: Result<EntryContext, CamtError>)
    ensures r.Success? <==> e.bookgDt.Some? && e.amt.Some? && e.amt.value.value.Some? && e.amt.value.ccy.Some?
    ensures r.Success? ==> r.value.acctSvcrRef == e.acctSvcrRef.GetOr("")
    ensures r.Success? ==> r.value.amount == e.amt.value.value.value && r.value.currency == e.amt.value.ccy.value
    ensures r.Success? ==> r.value.date == e.bookgDt.value
    ensures e.bookgDt.None? ==> r == Failure(MissingBookingDate)
    ensures r.Failure? && e.bookgDt.Some? ==> r.error == MissingEntryAmount
  {
    if e.bookgDt.None? then Failure(MissingBookingDate)
    else if e.amt.None? || e.amt.value.value.None? || e.amt.value.ccy.None? then Failure(MissingEntryAmount)
    else Success(EntryContext(e.bookgDt.value, e.amt.value.value.value, e.amt.value.ccy.value, e.acctSvcrRef.GetOr("")))
  }

  /** Credit/debit indicator of a detail, falling back to the entry's; neither present raises. */
  function CreditDebit(tx: TxDetail, e: Entry): (r: Result<string, CamtError>)
    ensures tx.cdtDbtInd.Some? ==> r == Success(tx.cdtDbtInd.value)
    ensures tx.cdtDbtInd.None? && e.cdtDbtInd.Some? ==> r == Success(e.cdtDbtInd.value)
    ensures r.Failure? <==> tx.cdtDbtInd.None? && e.cdtDbtInd.None?
  {
    if tx.cdtDbtInd.Some? then Success(tx.cdtDbtInd.value)
    else if e.cdtDbtInd.Some? then Success(e.cdtDbtInd.value)
    else Failure(MissingIndicator)
  }

  /** `"{0}:{1}:{2}".format(a, b, c)`: the text whose md5 is the last-resort reference. */
  function HashCode(a: string, b: string, c: string): string {
    a + ":" + b + ":" + c
  }

  /** `"{0}-{1}".format(reference, count)`. */
  function CountedReference(reference: string, count: nat): string {
    reference + "-" + NatToString(count)
  }

  /**
   * Unique reference of a transaction detail: its `Refs/EndToEndId`, else
   * its `TxId`, else its `PmtInfId`, else the entry's account-service
   * reference suffixed with the detail's 1-based position, else the md5 of
   * `date:amt:nm`, whose lookups of `Amt` and `Nm` raise when missing.
   */
  function DetailUniqueReference(tx: TxDetail, ctx: EntryContext, count: nat, f: Foreign): (r: Result<string, CamtError>)
    ensures tx.refsEndToEndId.Some? ==> r == Success(tx.refsEndToEndId.value)
    ensures tx.refsEndToEndId.None? && tx.txId.Some? ==> r == Success(tx.txId.value)
    ensures tx.refsEndToEndId.None? && tx.txId.None? && tx.pmtInfId.Some? ==> r == Success(tx.pmtInfId.value)
    ensures tx.refsEndToEndId.None? && tx.txId.None? && tx.pmtInfId.None? && ctx.acctSvcrRef != "" ==>
              r == Success(CountedReference(ctx.acctSvcrRef, count))
    ensures r.Failure? <==> tx.refsEndToEndId.None? && tx.txId.None? && tx.pmtInfId.None? && ctx.acctSvcrRef == ""
                            && (tx.amt.None? || tx.nm.None?)
    ensures tx.refsEndToEndId.None? && tx.txId.None? && tx.pmtInfId.None? && ctx.acctSvcrRef == ""
            && tx.amt.Some? && tx.nm.Some? ==>
              r == Success(f.md5Hex(HashCode(ctx.date, tx.amt.value.text, tx.nm.value)))
    ensures r.Failure? ==> r.error == MissingHashInput
  {
    if tx.refsEndToEndId.Some? then Success(tx.refsEndToEndId.value)
    else if tx.txId.Some? then Success(tx.txId.value)
    else if tx.pmtInfId.Some? then Success(tx.pmtInfId.value)
    else if ctx.acctSvcrRef != "" then Success(CountedReference(ctx.acctSvcrRef, count))
    else if tx.amt.Some? && tx.nm.Some? then Success(f.md5Hex(HashCode(ctx.date, tx.amt.value.text, tx.nm.value)))
    else Failure(MissingHashInput)
  }

  /**
   * Unique reference of an entry without transaction details: its
   * account-service reference, else `TxId`, else `PmtInfId`, else the md5 of
   * `date:currency:amount`. It never raises.
   */
  function EntryUniqueReference(e: Entry, ctx: EntryContext, f: Foreign): (r: string)
    ensures e.acctSvcrRef.Some? ==> r == e.acctSvcrRef.value
    ensures e.acctSvcrRef.None? && e.txId.Some? ==> r == e.txId.value
    ensures e.acctSvcrRef.None? && e.txId.None? && e.pmtInfId.Some? ==> r == e.pmtInfId.value
    ensures e.acctSvcrRef.None? && e.txId.None? && e.pmtInfId.None? ==>
              r == f.md5Hex(HashCode(ctx.date, ctx.currency, f.floatText(ctx.amount)))
  {
    if e.acctSvcrRef.Some? then e.acctSvcrRef.value
    else if e.txId.Some? then e.txId.value
    else if e.pmtInfId.Some? then e.pmtInfId.value
    else f.md5Hex(HashCode(ctx.date, ctx.currency, f.floatText(ctx.amount)))
  }

  /** Two counter-suffixed references of one entry differ when their positions do. */
  lemma CountedReferencesDistinct(reference: string, a: nat, b: nat)
    requires a != b
    ensures CountedReference(reference, a) != CountedReference(reference, b)
  {
    if CountedReference(reference, a) == CountedReference(reference, b) {
      var p := reference + "-";
      assert CountedReference(reference, a) == p + NatToString(a);
      assert CountedReference(reference, b) == p + NatToString(b);
      assert (p + NatToString(a))[|p|..] == NatToString(a);
      assert (p + NatToString(b))[|p|..] == NatToString(b);
      NatToStringInjective(a, b);
    }
  }

  /** Two colon-separated texts with colon-free heads are equal only if heads and tails are. */
  lemma ColonSplitUnique(x: string, r1: string, y: string, r2: string)
    requires ':' !in x && ':' !in y
    requires x + ":" + r1 == y + ":" + r2
    ensures x == y && r1 == r2
  {
    var s := x + ":" + r1;
    assert s[|x|] == ':';
    assert (y + ":" + r2)[|y|] == ':';
    assert x == s[..|x|] == y;
    assert r1 == s[|x| + 1..] == r2;
  }

  /**
   * The hash input identifies its parts when date and amount text contain no
   * colon: transactions that differ in date, amount or party name hash
   * different texts.
   */
  lemma HashCodeInjective(d1: string, a1: string, p1: string, d2: string, a2: string, p2: string)
    requires ':' !in d1 && ':' !in d2 && ':' !in a1 && ':' !in a2
    requires HashCode(d1, a1, p1) == HashCode(d2, a2, p2)
    ensures d1 == d2 && a1 == a2 && p1 == p2
  {
    assert HashCode(d1, a1, p1) == d1 + ":" + (a1 + ":" + p1);
    assert HashCode(d2, a2, p2) == d2 + ":" + (a2 + ":" + p2);
    ColonSplitUnique(d1, a1 + ":" + p1, d2, a2 + ":" + p2);
    ColonSplitUnique(a1, p1, a2, p2);
  }

  /**
   * Two details that both fall back to the hash get the same unique
   * reference only if they agree on booking date, amount text and party
   * name, provided the digest is injective and date and amount text contain
   * no colon.
   */
  lemma HashedReferencesIdentify(tx1: TxDetail, ctx1: EntryContext, c1: nat, tx2: TxDetail, ctx2: EntryContext, c2: nat, f: Foreign)
    requires forall x, y :: f.md5Hex(x) == f.md5Hex(y) ==> x == y
    requires tx1.refsEndToEndId.None? && tx1.txId.None? && tx1.pmtInfId.None? && ctx1.acctSvcrRef == "" && tx1.amt.Some? && tx1.nm.Some?
    requires tx2.refsEndToEndId.None? && tx2.txId.None? && tx2.pmtInfId.None? && ctx2.acctSvcrRef == "" && tx2.amt.Some? && tx2.nm.Some?
    requires ':' !in ctx1.date && ':' !in ctx2.date && ':' !in tx1.amt.value.text && ':' !in tx2.amt.value.text
    requires DetailUniqueReference(tx1, ctx1, c1, f) == DetailUniqueReference(tx2, ctx2, c2, f)
    ensures ctx1.date == ctx2.date && tx1.amt.value.text == tx2.amt.value.text && tx1.nm.value == tx2.nm.value
  {
    var h1 := HashCode(ctx1.date, tx1.amt.value.text, tx1.nm.value);
    var h2 := HashCode(ctx2.date, tx2.amt.value.text, tx2.nm.value);
    assert f.md5Hex(h1) == f.md5Hex(h2);
    HashCodeInjective(ctx1.date, tx1.amt.value.text, tx1.nm.value, ctx2.date, tx2.amt.value.text, tx2.nm.value);
  }

  /** An `Amt` that yields both a number and a currency. */
  function AmountOf(a: Option<Amt>): (r: Option<(int, string)>)
    ensures r.Some? <==> a.Some? && a.value.value.Some? && a.value.ccy.Some?
  {
    if a.Some? && a.value.value.Some? && a.value.ccy.Some? then Some((a.value.value.value, a.value.ccy.value)) else None
  }

  /**
   * Amount and currency of a detail: from `TxAmt/Amt`, else from its first
   * `Amt`, else the entry's. Both always come from the same element.
   */
  function DetailAmount(tx: TxDetail, ctx: EntryContext): (r: (int, string))
    ensures AmountOf(tx.txAmt).Some? ==> r == AmountOf(tx.txAmt).value
    ensures AmountOf(tx.txAmt).None? && AmountOf(tx.amt).Some? ==> r == AmountOf(tx.amt).value
    ensures AmountOf(tx.txAmt).None? && AmountOf(tx.amt).None? ==> r == (ctx.amount, ctx.currency)
  {
    if AmountOf(tx.txAmt).Some? then AmountOf(tx.txAmt).value
    else if AmountOf(tx.amt).Some? then AmountOf(tx.amt).value
    else (ctx.amount, ctx.currency)
  }

  /** Name, address and IBAN of the counterparty of a transaction. */
  datatype Counterparty = Counterparty(name: string, address: string, iban: string)

  /** `s` ends with `t`. */
  predicate IsSuffix(t: string, s: string) {
    |t| <= |s| && s[|s| - |t|..] == t
  }

  /**
   * The two address lines of a party that has a name: from `StrtNm`
   * ("street number", or the street alone) and "postcode town", else from
   * exactly two `AdrLine`s, else blank.
   */
  function AddressLines(p: Party): (r: (string, string))
    ensures p.strtNm.Some? ==> r.1 != "" && IsPrefix(p.strtNm.value, r.0)
    ensures p.strtNm.Some? && p.bldgNb.Some? ==> r.0 == p.strtNm.value + " " + p.bldgNb.value
    ensures p.strtNm.Some? && p.bldgNb.None? ==> r.0 == p.strtNm.value
    ensures p.strtNm.Some? ==> r.1 == p.pstCd.GetOr("") + " " + p.twnNm.GetOr("")
    ensures p.strtNm.None? && |p.adrLines| == 2 ==> r == (p.adrLines[0], p.adrLines[1])
    ensures p.strtNm.None? && |p.adrLines| != 2 ==> r == ("", "")
  {
    if p.strtNm.Some? then
      var street := p.strtNm.value;
      var line1 := if p.bldgNb.Some? then street + " " + p.bldgNb.value else street;
      assert IsPrefix(street, line1) by { assert line1[..|street|] == street; }
      (line1, p.pstCd.GetOr("") + " " + p.twnNm.GetOr(""))
    else if |p.adrLines| == 2 then (p.adrLines[0], p.adrLines[1])
    else ("", "")
  }

  /**
   * The one-line address: both lines and the country when both lines are
   * non-blank, the first line and the country when only it is, else the
   * country alone. It always ends with the country.
   */
  function ComposeAddress(line1: string, line2: string, country: string): (r: string)
    ensures IsSuffix(country, r)
    ensures line1 == "" ==> r == country
    ensures line1 != "" ==> IsPrefix(line1 + ", ", r)
    ensures line1 != "" && line2 != "" ==> r == line1 + ", " + line2 + ", " + country
    ensures line1 != "" && line2 == "" ==> r == line1 + ", " + country
  {
    if line1 != "" && line2 != "" then
      var r := line1 + ", " + line2 + ", " + country;
      assert r[|r| - |country|..] == country;
      assert r[..|line1 + ", "|] == line1 + ", ";
      r
    else if line1 != "" then
      var r := line1 + ", " + country;
      assert r[|r| - |country|..] == country;
      assert r[..|line1 + ", "|] == line1 + ", ";
      r
    else
      assert country[|country| - |country|..] == country;
      country
  }

  /**
   * Counterparty from the party block chosen by the indicator. Without a
   * name the first `AdrLine` (or "not found") stands in for it and both
   * address lines are blank; a missing block behaves like a block without
   * name, lines and country.
   */
  function ResolveParty(p: Option<Party>, iban: string): (r: Counterparty)
    ensures r.iban == iban
    ensures p.Some? && p.value.nm.Some? ==> r.name == p.value.nm.value
    ensures p.Some? && p.value.nm.Some? ==>
              r.address == ComposeAddress(AddressLines(p.value).0, AddressLines(p.value).1, p.value.ctry.GetOr(""))
    ensures p.Some? && p.value.nm.None? ==>
              r.name == (if |p.value.adrLines| > 0 then p.value.adrLines[0] else "not found")
              && r.address == p.value.ctry.GetOr("")
    ensures p.None? ==> r == Counterparty("not found", "", iban)
    ensures p.Some? ==> IsSuffix(p.value.ctry.GetOr(""), r.address)
  {
    if p.None? then Counterparty("not found", "", iban)
    else
      var party := p.value;
      var country := party.ctry.GetOr("");
      if party.nm.Some? then
        var lines := AddressLines(party);
        Counterparty(party.nm.value, ComposeAddress(lines.0, lines.1, country), iban)
      else
        var name := if |party.adrLines| > 0 then party.adrLines[0] else "not found";
        Counterparty(name, ComposeAddress("", "", country), iban)
  }

  /**
   * Counterparty of a transaction detail: for `DBIT` the creditor and the
   * `CdtrAcct` IBAN, otherwise the debtor and the `DbtrAcct` IBAN (a missing
   * IBAN is ""). Without `RltdPties` name, address and IBAN are all "".
   */
  function ResolveCounterparty(tx: TxDetail, creditDebit: string): (r: Counterparty)
    ensures tx.rltdPties.None? ==> r == Counterparty("", "", "")
    ensures tx.rltdPties.Some? && creditDebit == "DBIT" ==>
              r == ResolveParty(tx.rltdPties.value.cdtr, tx.cdtrAcctIban.GetOr(""))
    ensures tx.rltdPties.Some? && creditDebit != "DBIT" ==>
              r == ResolveParty(tx.rltdPties.value.dbtr, tx.dbtrAcctIban.GetOr(""))
  {
    match tx.rltdPties
    case None => Counterparty("", "", "")
    case Some(rp) =>
      if creditDebit == "DBIT" then ResolveParty(rp.cdtr, tx.cdtrAcctIban.GetOr(""))
      else ResolveParty(rp.dbtr, tx.dbtrAcctIban.GetOr(""))
  }

  /**
   * A named party with a structured, non-blank street always gets the full
   * "line1, line2, country" address, because the postcode/town line is never
   * blank.
   */
  lemma StructuredAddressIsComplete(p: Party, iban: string)
    requires p.nm.Some? && p.strtNm.Some? && p.strtNm.value != ""
    ensures ResolveParty(Some(p), iban).address ==
              AddressLines(p).0 + ", " + AddressLines(p).1 + ", " + p.ctry.GetOr("")
  {
    assert AddressLines(p).0 != "" by {
      assert IsPrefix(p.strtNm.value, AddressLines(p).0);
    }
  }

  /**
   * Transaction reference used for matching: `RmtInf/Strd/CdtrRefInf/Ref`,
   * else `RmtInf/Ustrd`, else `EndToEndId`, else `AddtlTxInf`, else the
   * unique reference.
   */
  function TransactionReference(tx: TxDetail, uniqueReference: string): (r: string)
    ensures tx.rmtInf.Some? && tx.rmtInf.value.strdRef.Some? ==> r == tx.rmtInf.value.strdRef.value
    ensures tx.rmtInf.Some? && tx.rmtInf.value.strdRef.None? && tx.rmtInf.value.ustrd.Some? ==> r == tx.rmtInf.value.ustrd.value
    ensures (tx.rmtInf.None? || (tx.rmtInf.value.strdRef.None? && tx.rmtInf.value.ustrd.None?)) && tx.endToEndId.Some? ==>
              r == tx.endToEndId.value
    ensures (tx.rmtInf.None? || (tx.rmtInf.value.strdRef.None? && tx.rmtInf.value.ustrd.None?)) && tx.endToEndId.None? ==>
              r == tx.addtlTxInf.GetOr(uniqueReference)
  {
    if tx.rmtInf.Some? && tx.rmtInf.value.strdRef.Some? then tx.rmtInf.value.strdRef.value
    else if tx.rmtInf.Some? && tx.rmtInf.value.ustrd.Some? then tx.rmtInf.value.ustrd.value
    else if tx.endToEndId.Some? then tx.endToEndId.value
    else if tx.addtlTxInf.Some? then tx.addtlTxInf.value
    else uniqueReference
  }
}
