/**
 * UAE VAT arithmetic: the five tax codes of the Federal Tax Authority, VAT on
 * one amount (tax-exclusive or tax-inclusive) and on one invoice line,
 * aggregation of lines into invoice totals with a per-code breakdown, TRN
 * format checks, invoice classification and the VAT return balance.
 *
 * Amounts enter as exact decimals (`real`) and leave quantized to whole
 * cents (`int`) with half-up rounding, as `Decimal.quantize` does.
 */
module Vat {
  import opened Common

  // ---------------------------------------------------------------- tax codes

  datatype TaxCode = SR | ZR | ES | RC | OP

  /** One entry of the tax-code table. */
  datatype TaxCodeInfo = TaxCodeInfo(
    rate: Option<real>,
    name: string,
    nameAr: string,
    description: string,
    peppolCode: string,
    oracleCode: string,
    taxable: bool)

  function CodeString(c: TaxCode): string {
    match c
    case SR => "SR"
    case ZR => "ZR"
    case ES => "ES"
    case RC => "RC"
    case OP => "OP"
  }

  /** Dictionary lookup of a code string in the tax-code table. */
  function ParseTaxCode(s: string): (c: Option<TaxCode>)
    ensures c.Some? ==> CodeString(c.value) == s
    ensures c.None? ==> forall k: TaxCode :: CodeString(k) != s
  {
    if s == "SR" then Some(SR)
    else if s == "ZR" then Some(ZR)
    else if s == "ES" then Some(ES)
    else if s == "RC" then Some(RC)
    else if s == "OP" then Some(OP)
    else None
  }

  /** The VAT rate of a code; exempt and out-of-scope supplies carry none. */
  function Rate(c: TaxCode): Option<real> {
    match c
    case SR | RC => Some(0.05)
    case ZR => Some(0.00)
    case ES | OP => None
  }

  /** Whether supplies under a code are taxable. */
  function Taxable(c: TaxCode): bool {
    match c
    case SR | ZR | RC => true
    case ES | OP => false
  }

  /** The English name, Arabic name, description, PEPPOL code and Oracle code of a code. */
  function CodeTexts(c: TaxCode): (string, string, string, string, string) {
    match c
    case SR => ("Standard-rated", "خاضع للضريبة بالنسبة الأساسية",
      "Most goods & services, commercial real estate", "AE", "S-UAE")
    case ZR => ("Zero-rated", "خاضع للضريبة بنسبة الصفر",
      "Exports, international transport, first sale residential property, healthcare, education", "Z", "Z-UAE")
    case ES => ("Exempt", "معفى من الضريبة",
      "Subsequent residential property sales, bare land, financial services", "E", "X-UAE")
    case RC => ("Reverse charge", "آلية الاحتساب العكسي",
      "Importer accounting for VAT (both output & input)", "AE", "RCP-UAE, RCS-UAE")
    case OP => ("Out of scope", "خارج نطاق الضريبة",
      "Non-UAE supplies", "O", "NO_TAX-UAE")
  }

  /** The tax-code table, one entry per code. */
  function TaxCodes(c: TaxCode): TaxCodeInfo {
    var t := CodeTexts(c);
    TaxCodeInfo(Rate(c), t.0, t.1, t.2, t.3, t.4, Taxable(c))
  }

  /** A code is taxable exactly when it carries a rate. */
  lemma TaxableIffRated(c: TaxCode)
    ensures Taxable(c) <==> Rate(c).Some?
  {
    match c
    case SR =>
    case ZR =>
    case ES =>
    case RC =>
    case OP =>
  }

  /** The rates of the table. */
  lemma TaxCodeRates(c: TaxCode)
    ensures (c == SR || c == RC) <==> Rate(c) == Some(0.05)
    ensures c == ZR <==> Rate(c) == Some(0.0)
    ensures Rate(c).Some? ==> 0.0 <= Rate(c).value
  {
    match c
    case SR =>
    case ZR =>
    case ES =>
    case RC =>
    case OP =>
  }

  predicate IsValidTaxCode(s: string) {
    ParseTaxCode(s).Some?
  }

  /** Exactly the five table keys are valid codes. */
  lemma ValidTaxCodes(s: string)
    ensures IsValidTaxCode(s) <==> s in {"SR", "ZR", "ES", "RC", "OP"}
  {
  }

  /** The table entry for a code, or the `ValueError` message for an unknown one. */
  function GetTaxCodeInfo(s: string): (r: Result<TaxCodeInfo, string>)
    ensures r.Success? <==> IsValidTaxCode(s)
    ensures r.Success? ==> r.value == TaxCodes(ParseTaxCode(s).value)
    ensures r.Failure? ==> r.error == "Invalid tax code: " + s + ". Must be one of ['SR', 'ZR', 'ES', 'RC', 'OP']"
  {
    match ParseTaxCode(s)
    case None => Failure("Invalid tax code: " + s + ". Must be one of ['SR', 'ZR', 'ES', 'RC', 'OP']")
    case Some(c) => Success(TaxCodes(c))
  }

  // ---------------------------------------------------------------- VAT on one amount

  /** Net, VAT and total in whole cents, the applied code and its rate. */
  datatype VatCalc = VatCalc(netAmount: int, vatAmount: int, totalAmount: int, taxCode: TaxCode, taxRate: Option<real>)

  /**
   * VAT on an amount under a known code. Without a rate the amount passes
   * through with zero VAT; exclusive mode adds `amount * rate`; inclusive
   * mode backs the net out of the gross as `amount / (1 + rate)`.
   */
  function VatOn(amount: real, c: TaxCode, isInclusive: bool): (v: VatCalc)
    ensures v.taxCode == c && v.taxRate == Rate(c)
    ensures v.taxRate.None? ==> v.vatAmount == 0 && v.netAmount == v.totalAmount == RoundHalfUpCents(amount)
  {
    match Rate(c)
    case None =>
      VatCalc(RoundHalfUpCents(amount), 0, RoundHalfUpCents(amount), c, None)
    case Some(rate) =>
      if isInclusive then
        var net := amount / (1.0 + rate);
        VatCalc(RoundHalfUpCents(net), RoundHalfUpCents(amount - net), RoundHalfUpCents(amount), c, Some(rate))
      else
        var vat := amount * rate;
        VatCalc(RoundHalfUpCents(amount), RoundHalfUpCents(vat), RoundHalfUpCents(amount + vat), c, Some(rate))
  }

  /** VAT on an amount under a code given as a string; an unknown code is a `ValueError`. */
  function CalculateVat(amount: real, taxCode: string, isInclusive: bool): (r: Result<VatCalc, string>)
    ensures r.Failure? <==> !IsValidTaxCode(taxCode)
    ensures r.Failure? ==> r.error == "Invalid tax code: " + taxCode
    ensures r.Success? ==> CodeString(r.value.taxCode) == taxCode && r.value == VatOn(amount, r.value.taxCode, isInclusive)
  {
    match ParseTaxCode(taxCode)
    case None => Failure("Invalid tax code: " + taxCode)
    case Some(c) => Success(VatOn(amount, c, isInclusive))
  }

  /**
   * Tax-exclusive VAT on a whole-cent amount keeps the net and balances:
   * net + VAT == total, ties in the VAT included.
   */
  lemma ExclusiveBalanced(cents: int, c: TaxCode)
    ensures var r := VatOn(CentsToReal(cents), c, false);
      r.netAmount == cents && r.netAmount + r.vatAmount == r.totalAmount
  {
    RoundWholeCents(cents);
    TaxCodeRates(c);
    if Rate(c).Some? {
      var vat := CentsToReal(cents) * Rate(c).value;
      assert cents >= 0 ==> vat >= 0.0;
      assert cents <= 0 ==> vat <= 0.0;
      RoundShift(cents, vat);
    }
  }

  /** At 5%, the net backed out of a whole-cent gross is never at a tie. */
  lemma InclusiveNetNoTie(cents: int)
    ensures !HalfCentTie(CentsToReal(cents) / 1.05)
  {
    var x := CentsToReal(cents) / 1.05;
    assert x * 100.0 == (20 * cents) as real / 21.0;
  }

  /**
   * Tax-inclusive VAT on a whole-cent gross keeps the gross and balances:
   * net + VAT == total.
   */
  lemma InclusiveBalanced(cents: int, c: TaxCode)
    ensures var r := VatOn(CentsToReal(cents), c, true);
      r.totalAmount == cents && r.netAmount + r.vatAmount == r.totalAmount
  {
    RoundWholeCents(cents);
    TaxCodeRates(c);
    var amount := CentsToReal(cents);
    if Rate(c) == Some(0.05) {
      var net := amount / (1.0 + 0.05);
      InclusiveNetNoTie(cents);
      RoundComplement(net, amount - net, cents);
    } else if Rate(c) == Some(0.0) {
      var net := amount / (1.0 + 0.0);
      assert net == amount;
      assert amount - net == CentsToReal(0);
      RoundWholeCents(0);
    }
  }

  /**
   * Backing VAT out of the total that exclusive pricing produced recovers the
   * original whole-cent net.
   */
  lemma InclusiveRecoversNet(cents: int, c: TaxCode)
    ensures VatOn(CentsToReal(VatOn(CentsToReal(cents), c, false).totalAmount), c, true).netAmount == cents
  {
    match c
    case SR | RC => RecoverRated(cents, c);
    case ZR => RecoverZeroRated(cents);
    case ES | OP => RecoverUnrated(cents, c);
  }

  lemma RecoverRated(cents: int, c: TaxCode)
    requires c == SR || c == RC
    ensures VatOn(CentsToReal(VatOn(CentsToReal(cents), c, false).totalAmount), c, true).netAmount == cents
  {
    var amount := CentsToReal(cents);
    var gross := amount + amount * 0.05;
    var total := RoundHalfUpCents(gross);
    assert VatOn(amount, c, false).totalAmount == total;
    assert gross * 100.0 == (cents as real) * 1.05;
    RecoverFivePercent(cents, total);
    assert VatOn(CentsToReal(total), c, true).netAmount == RoundHalfUpCents(CentsToReal(total) / (1.0 + 0.05));
  }

  lemma RecoverZeroRated(cents: int)
    ensures VatOn(CentsToReal(VatOn(CentsToReal(cents), ZR, false).totalAmount), ZR, true).netAmount == cents
  {
    var amount := CentsToReal(cents);
    RoundWholeCents(cents);
    assert amount * 0.0 == 0.0 && amount + amount * 0.0 == amount;
    assert VatOn(amount, ZR, false).totalAmount == cents;
    assert amount / (1.0 + 0.0) == amount;
  }

  lemma RecoverUnrated(cents: int, c: TaxCode)
    requires c == ES || c == OP
    ensures VatOn(CentsToReal(VatOn(CentsToReal(cents), c, false).totalAmount), c, true).netAmount == cents
  {
    RoundWholeCents(cents);
    assert VatOn(CentsToReal(cents), c, false).totalAmount == cents;
  }

  /** Backing 5 % out of a gross within half a cent of 1.05 times the net lands on that net. */
  lemma RecoverFivePercent(cents: int, total: int)
    requires (total as real) - 0.5 <= (cents as real) * 1.05 <= (total as real) + 0.5
    ensures RoundHalfUpCents(CentsToReal(total) / (1.0 + 0.05)) == cents
  {
    var net := CentsToReal(total) / 1.05;
    assert net * 100.0 == (total as real) / 1.05;
    RoundNear(net, cents);
  }

  /** The two worked examples of the tax-exclusive and tax-inclusive modes. */
  lemma WorkedExamples()
    ensures CalculateVat(1000.0, "SR", false) == Success(VatCalc(100000, 5000, 105000, SR, Some(0.05)))
    ensures CalculateVat(1050.0, "SR", true) == Success(VatCalc(100000, 5000, 105000, SR, Some(0.05)))
    ensures CalculateVat(1000.0, "ZR", false) == Success(VatCalc(100000, 0, 100000, ZR, Some(0.0)))
    ensures CalculateVat(1000.0, "ES", false) == Success(VatCalc(100000, 0, 100000, ES, None))
  {
    RoundWholeCents(100000);
    RoundWholeCents(5000);
    RoundWholeCents(105000);
    RoundWholeCents(0);
    assert 1000.0 == CentsToReal(100000) && 1050.0 == CentsToReal(105000);
    assert 50.0 == CentsToReal(5000) && 0.0 == CentsToReal(0);
    assert 1050.0 / (1.0 + 0.05) == 1000.0;
  }

  /**
   * The balance needs whole-cent input: 0.0149 at 5% rounds to a net of 0.01,
   * VAT 0.00 and a total of 0.02.
   */
  lemma FractionalCentsMayNotBalance()
    ensures var r := CalculateVat(0.0149, "SR", false).value;
      r.netAmount == 1 && r.vatAmount == 0 && r.totalAmount == 2
  {
    RoundNear(0.0149, 1);
    RoundNear(0.0149 * 0.05, 0);
    RoundNear(0.0149 + 0.0149 * 0.05, 2);
  }

  // ---------------------------------------------------------------- one invoice line

  /** A computed line: quantity, unit price in cents and the line's VAT split. */
  datatype LineVat = LineVat(
    quantity: real,
    unitPrice: int,
    lineNet: int,
    lineVat: int,
    lineTotal: int,
    taxCode: TaxCode,
    taxRate: Option<real>)

  /** VAT on `quantity * unit_price`; the unit price is reported rounded to cents. */
  function CalculateLineItemVat(quantity: real, unitPrice: real, taxCode: string, isInclusive: bool): (r: Result<LineVat, string>)
    ensures r.Failure? <==> !IsValidTaxCode(taxCode)
    ensures r.Failure? ==> r.error == "Invalid tax code: " + taxCode
    ensures r.Success? ==>
      var v := CalculateVat(quantity * unitPrice, taxCode, isInclusive).value;
      r.value == LineVat(quantity, RoundHalfUpCents(unitPrice), v.netAmount, v.vatAmount, v.totalAmount, v.taxCode, v.taxRate)
  {
    match CalculateVat(quantity * unitPrice, taxCode, isInclusive)
    case Failure(e) => Failure(e)
    case Success(v) =>
      Success(LineVat(quantity, RoundHalfUpCents(unitPrice), v.netAmount, v.vatAmount, v.totalAmount, v.taxCode, v.taxRate))
  }

  /**
   * A whole quantity of a whole-cent price, priced exclusive of tax, nets to
   * quantity times price and balances.
   */
  lemma LineBalanced(quantity: int, priceCents: int, taxCode: string)
    requires IsValidTaxCode(taxCode)
    ensures var l := CalculateLineItemVat(quantity as real, CentsToReal(priceCents), taxCode, false).value;
      l.unitPrice == priceCents && l.lineNet == quantity * priceCents && l.lineNet + l.lineVat == l.lineTotal
  {
    assert (quantity as real) * CentsToReal(priceCents) == CentsToReal(quantity * priceCents);
    ExclusiveBalanced(quantity * priceCents, ParseTaxCode(taxCode).value);
    RoundWholeCents(priceCents);
  }

  // ---------------------------------------------------------------- invoice totals

  /** Running net, VAT and total, in cents. */
  datatype Sums = Sums(net: int, vat: int, total: int)

  function Plus(s: Sums, l: LineVat): Sums {
    Sums(s.net + l.lineNet, s.vat + l.lineVat, s.total + l.lineTotal)
  }

  function Add(a: Sums, b: Sums): Sums {
    Sums(a.net + b.net, a.vat + b.vat, a.total + b.total)
  }

  /** Column sums over a list of lines. */
  function Totals(items: seq<LineVat>): Sums {
    if items == [] then Sums(0, 0, 0) else Plus(Totals(items[..|items| - 1]), items[|items| - 1])
  }

  /** The breakdown dictionary: per code, the sums of that code's lines. */
  function ByCode(items: seq<LineVat>): map<TaxCode, Sums> {
    if items == [] then map[]
    else
      var m := ByCode(items[..|items| - 1]);
      var l := items[|items| - 1];
      var prior := if l.taxCode in m then m[l.taxCode] else Sums(0, 0, 0);
      m[l.taxCode := Plus(prior, l)]
  }

  /** The keys of the breakdown in insertion order (first appearance). */
  function CodeOrder(items: seq<LineVat>): seq<TaxCode> {
    if items == [] then []
    else
      var l := items[|items| - 1];
      var o := CodeOrder(items[..|items| - 1]);
      if l.taxCode in ByCode(items[..|items| - 1]) then o else o + [l.taxCode]
  }

  /** The lines carrying one code, in order. */
  function OfCode(items: seq<LineVat>, c: TaxCode): seq<LineVat> {
    if items == [] then []
    else
      var l := items[|items| - 1];
      OfCode(items[..|items| - 1], c) + (if l.taxCode == c then [l] else [])
  }

  predicate Distinct(s: seq<TaxCode>) {
    forall i, j :: 0 <= i < j < |s| ==> s[i] != s[j]
  }

  /** Sum of the breakdown entries, visited in the order given. */
  function SumOver(order: seq<TaxCode>, m: map<TaxCode, Sums>): Sums
    requires forall c :: c in order ==> c in m
  {
    if order == [] then Sums(0, 0, 0)
    else Add(SumOver(order[..|order| - 1], m), m[order[|order| - 1]])
  }

  /** The invoice totals and the per-code breakdown. */
  datatype InvoiceVat = InvoiceVat(
    subtotal: int,
    totalVat: int,
    grandTotal: int,
    vatByCode: map<TaxCode, Sums>,
    codeOrder: seq<TaxCode>)

  /** Accumulates the lines' columns and the per-code breakdown in one pass. */
  method AggregateInvoiceVat(lineItems: seq<LineVat>) returns (r: InvoiceVat)
    ensures r.subtotal == Totals(lineItems).net
    ensures r.totalVat == Totals(lineItems).vat
    ensures r.grandTotal == Totals(lineItems).total
    ensures r.vatByCode == ByCode(lineItems)
    ensures r.codeOrder == CodeOrder(lineItems)
  {
    var subtotal, totalVat, grandTotal := 0, 0, 0;
    var vatByCode: map<TaxCode, Sums> := map[];
    var order: seq<TaxCode> := [];
    for i := 0 to |lineItems|
      invariant Sums(subtotal, totalVat, grandTotal) == Totals(lineItems[..i])
      invariant vatByCode == ByCode(lineItems[..i])
      invariant order == CodeOrder(lineItems[..i])
    {
      var item := lineItems[i];
      assert lineItems[..i + 1][..i] == lineItems[..i];
      subtotal := subtotal + item.lineNet;
      totalVat := totalVat + item.lineVat;
      grandTotal := grandTotal + item.lineTotal;
      var taxCode := item.taxCode;
      if taxCode !in vatByCode {
        vatByCode := vatByCode[taxCode := Sums(0, 0, 0)];
        order := order + [taxCode];
      }
      vatByCode := vatByCode[taxCode := Plus(vatByCode[taxCode], item)];
    }
    assert lineItems[..|lineItems|] == lineItems;
    RoundWholeCents(subtotal);
    RoundWholeCents(totalVat);
    RoundWholeCents(grandTotal);
    r := InvoiceVat(
      RoundHalfUpCents(CentsToReal(subtotal)),
      RoundHalfUpCents(CentsToReal(totalVat)),
      RoundHalfUpCents(CentsToReal(grandTotal)),
      vatByCode, order);
  }

  /** Some line carries code `c`. */
  predicate HasCode(items: seq<LineVat>, c: TaxCode) {
    exists i :: 0 <= i < |items| && items[i].taxCode == c
  }

  /** One breakdown key per distinct code among the lines, each listed once. */
  lemma {:induction false} ByCodeKeys(items: seq<LineVat>)
    ensures Distinct(CodeOrder(items))
    ensures forall c :: c in ByCode(items) <==> c in CodeOrder(items)
    ensures forall c :: c in ByCode(items) <==> HasCode(items, c)
  {
    if items != [] {
      var p := items[..|items| - 1];
      ByCodeKeys(p);
      forall c ensures HasCode(items, c) <==> (c == items[|items| - 1].taxCode || HasCode(p, c))
      {
        if HasCode(items, c) {
          var i :| 0 <= i < |items| && items[i].taxCode == c;
          if i < |p| { assert p[i] == items[i]; }
        }
        if HasCode(p, c) {
          var i :| 0 <= i < |p| && p[i].taxCode == c;
          assert items[i] == p[i];
        }
      }
    }
  }

  /** Each breakdown entry is the column sums of exactly the lines with that code. */
  lemma {:induction false} ByCodeIsFilteredSum(items: seq<LineVat>, c: TaxCode)
    requires c in ByCode(items)
    ensures ByCode(items)[c] == Totals(OfCode(items, c))
  {
    var p := items[..|items| - 1];
    var l := items[|items| - 1];
    if c in ByCode(p) {
      ByCodeIsFilteredSum(p, c);
    } else {
      OfCodeAbsent(p, c);
    }
    if l.taxCode != c {
      assert OfCode(items, c) == OfCode(p, c);
    } else {
      var f := OfCode(items, c);
      assert f[..|f| - 1] == OfCode(p, c);
    }
  }

  lemma {:induction false} OfCodeAbsent(items: seq<LineVat>, c: TaxCode)
    requires c !in ByCode(items)
    ensures OfCode(items, c) == []
  {
    if items != [] {
      OfCodeAbsent(items[..|items| - 1], c);
    }
  }

  /** Summing over a list whose entries agree gives the same sum. */
  lemma {:induction false} SumOverFrame(order: seq<TaxCode>, m1: map<TaxCode, Sums>, m2: map<TaxCode, Sums>)
    requires forall c :: c in order ==> c in m1 && c in m2 && m1[c] == m2[c]
    ensures SumOver(order, m1) == SumOver(order, m2)
  {
    if order != [] {
      SumOverFrame(order[..|order| - 1], m1, m2);
    }
  }

  /** Adding a line to the entry of a code listed once adds it to the sum. */
  lemma {:induction false} SumOverUpdate(order: seq<TaxCode>, m: map<TaxCode, Sums>, c: TaxCode, l: LineVat)
    requires Distinct(order) && c in order
    requires forall k :: k in order ==> k in m
    ensures SumOver(order, m[c := Plus(m[c], l)]) == Plus(SumOver(order, m), l)
  {
    var p := order[..|order| - 1];
    var last := order[|order| - 1];
    var m2 := m[c := Plus(m[c], l)];
    if last == c {
      assert c !in p;
      SumOverFrame(p, m2, m);
    } else {
      assert c in p;
      SumOverUpdate(p, m, c, l);
    }
  }

  /** The breakdown partitions the invoice: its entries add up to the invoice columns. */
  lemma {:induction false} BreakdownAddsUp(items: seq<LineVat>)
    ensures forall c :: c in CodeOrder(items) ==> c in ByCode(items)
    ensures SumOver(CodeOrder(items), ByCode(items)) == Totals(items)
  {
    ByCodeKeys(items);
    if items != [] {
      var p := items[..|items| - 1];
      var l := items[|items| - 1];
      BreakdownAddsUp(p);
      ByCodeKeys(p);
      BreakdownStep(CodeOrder(p), ByCode(p), l);
      assert Totals(items) == Plus(Totals(p), l);
    }
  }

  /** One more line moves the breakdown sum by exactly that line. */
  lemma BreakdownStep(o: seq<TaxCode>, m: map<TaxCode, Sums>, l: LineVat)
    requires Distinct(o)
    requires forall c :: c in m <==> c in o
    ensures var prior := if l.taxCode in m then m[l.taxCode] else Sums(0, 0, 0);
            var o2 := if l.taxCode in m then o else o + [l.taxCode];
            SumOver(o2, m[l.taxCode := Plus(prior, l)]) == Plus(SumOver(o, m), l)
  {
    var t := l.taxCode;
    if t in m {
      SumOverUpdate(o, m, t, l);
    } else {
      var m2 := m[t := Plus(Sums(0, 0, 0), l)];
      var o2 := o + [t];
      assert o2[..|o|] == o && o2[|o|] == t;
      SumOverFrame(o, m2, m);
      assert SumOver(o2, m2) == Add(SumOver(o, m2), m2[t]);
    }
  }

  // ---------------------------------------------------------------- TRN

  /**
   * `re.match(r'^\d{15}$', trn)`: fifteen digits, where `$` also accepts a
   * single newline after them.
   */
  predicate IsValidTrn(trn: string) {
    trn != [] &&
    ((|trn| == 15 && AllDigits(trn)) || (|trn| == 16 && AllDigits(trn[..15]) && trn[15] == '\n'))
  }

  /** The pattern admits a trailing newline after the fifteen digits. */
  lemma TrnTrailingNewline()
    ensures IsValidTrn("123456789012345\n")
    ensures !IsValidTrn("12345678901234") && !IsValidTrn("123456789012345A")
  {
    assert !AllDigits("123456789012345A"[..15]) || "123456789012345A"[15] != '\n';
    assert "123456789012345\n"[..15] == "123456789012345";
  }

  /** Groups a valid TRN 3-4-4-4 with spaces; anything else comes back unchanged. */
  function FormatTrn(trn: string): (r: string)
    ensures !IsValidTrn(trn) ==> r == trn
    ensures IsValidTrn(trn) ==> |r| == 18 && r[3] == ' ' && r[8] == ' ' && r[13] == ' '
  {
    if !IsValidTrn(trn) then trn
    else trn[..3] + " " + trn[3..7] + " " + trn[7..11] + " " + trn[11..15]
  }

  /** Removing the spaces from a formatted TRN gives back its fifteen digits. */
  lemma FormatTrnRoundTrip(trn: string)
    requires IsValidTrn(trn)
    ensures RemoveSpaces(FormatTrn(trn)) == trn[..15]
    ensures |trn| == 15 ==> RemoveSpaces(FormatTrn(trn)) == trn
  {
    var d := trn[..15];
    assert AllDigits(d);
    var a, b, c, e := trn[..3], trn[3..7], trn[7..11], trn[11..15];
    assert a == d[0..3] && b == d[3..7] && c == d[7..11] && e == d[11..15];
    AllDigitsSlice(d, 0, 3);
    AllDigitsSlice(d, 3, 7);
    AllDigitsSlice(d, 7, 11);
    AllDigitsSlice(d, 11, 15);
    GroupsRoundTrip(a, b, c, e);
    assert d[..7] == a + b;
    assert d[..11] == a + b + c;
    assert d == a + b + c + e;
  }

  lemma GroupsRoundTrip(a: string, b: string, c: string, e: string)
    requires AllDigits(a) && AllDigits(b) && AllDigits(c) && AllDigits(e)
    ensures RemoveSpaces(a + " " + b + " " + c + " " + e) == a + b + c + e
  {
    NoSpacesKept(a);
    NoSpacesKept(b);
    NoSpacesKept(c);
    NoSpacesKept(e);
    assert RemoveSpaces(" ") == "";
    RemoveSpacesConcat(a, " ");
    assert a + "" == a;
    RemoveSpacesConcat(a + " ", b);
    RemoveSpacesConcat(a + " " + b, " ");
    assert a + b + "" == a + b;
    RemoveSpacesConcat(a + " " + b + " ", c);
    RemoveSpacesConcat(a + " " + b + " " + c, " ");
    assert a + b + c + "" == a + b + c;
    RemoveSpacesConcat(a + " " + b + " " + c + " ", e);
  }

  lemma AllDigitsSlice(s: string, i: int, j: int)
    requires AllDigits(s) && 0 <= i <= j <= |s|
    ensures AllDigits(s[i..j])
  {
    assert forall k :: 0 <= k < j - i ==> s[i..j][k] == s[i + k];
  }

  lemma {:induction false} NoSpacesKept(s: string)
    requires AllDigits(s)
    ensures RemoveSpaces(s) == s
  {
    if s != [] {
      assert AllDigits(s[1..]);
      NoSpacesKept(s[1..]);
    }
  }

  /** Removing spaces distributes over concatenation. */
  lemma {:induction false} RemoveSpacesConcat(x: string, y: string)
    ensures RemoveSpaces(x + y) == RemoveSpaces(x) + RemoveSpaces(y)
    decreases |x|
  {
    if x == [] {
      assert x + y == y;
    } else {
      var head := if x[0] == ' ' then [] else [x[0]];
      assert (x + y)[0] == x[0];
      assert (x + y)[1..] == x[1..] + y;
      RemoveSpacesConcat(x[1..], y);
      AppendAssoc(head, RemoveSpaces(x[1..]), RemoveSpaces(y));
    }
  }

  // ---------------------------------------------------------------- classification

  const FullInvoiceThreshold: real := 10000.00

  /** Non-VAT businesses issue standard invoices; VAT invoices of 10000.00 and above are full. */
  function ClassifyInvoiceType(totalAmount: real, vatEnabled: bool): (r: string)
    ensures r == "standard" <==> !vatEnabled
    ensures r == "full" <==> vatEnabled && totalAmount >= FullInvoiceThreshold
    ensures r == "simplified" <==> vatEnabled && totalAmount < FullInvoiceThreshold
  {
    if !vatEnabled then "standard"
    else if totalAmount >= FullInvoiceThreshold then "full"
    else "simplified"
  }

  /** Raising the total never turns a full invoice back into a simplified one. */
  lemma ClassificationMonotone(a: real, b: real, vatEnabled: bool)
    requires a <= b
    ensures ClassifyInvoiceType(a, vatEnabled) == "full" ==> ClassifyInvoiceType(b, vatEnabled) == "full"
  {
  }

  /** Display label per classification and language; unknown keys fall back to "INVOICE". */
  function GetInvoiceTypeLabel(invoiceType: string, language: string): (r: string)
    ensures invoiceType !in {"full", "simplified", "standard"} ==> r == "INVOICE"
    ensures language !in {"en", "ar"} ==> r == "INVOICE"
    ensures invoiceType == "full" && language == "en" ==> r == "TAX INVOICE"
    ensures invoiceType == "simplified" && language == "en" ==> r == "SIMPLIFIED TAX INVOICE"
    ensures invoiceType == "standard" && language == "en" ==> r == "INVOICE"
    ensures invoiceType == "full" && language == "ar" ==> r == "فاتورة ضريبية"
    ensures invoiceType == "simplified" && language == "ar" ==> r == "فاتورة ضريبية مبسطة"
    ensures invoiceType == "standard" && language == "ar" ==> r == "فاتورة"
  {
    if invoiceType == "full" then
      (if language == "en" then "TAX INVOICE" else if language == "ar" then "فاتورة ضريبية" else "INVOICE")
    else if invoiceType == "simplified" then
      (if language == "en" then "SIMPLIFIED TAX INVOICE" else if language == "ar" then "فاتورة ضريبية مبسطة" else "INVOICE")
    else if invoiceType == "standard" then
      (if language == "en" then "INVOICE" else if language == "ar" then "فاتورة" else "INVOICE")
    else "INVOICE"
  }

  /** In either language, the three classifications carry three different labels. */
  lemma LabelsDistinguishClassification(a: real, b: real, vatA: bool, vatB: bool, language: string)
    requires language == "en" || language == "ar"
    requires ClassifyInvoiceType(a, vatA) != ClassifyInvoiceType(b, vatB)
    ensures GetInvoiceTypeLabel(ClassifyInvoiceType(a, vatA), language)
      != GetInvoiceTypeLabel(ClassifyInvoiceType(b, vatB), language)
  {
  }

  // ---------------------------------------------------------------- VAT return

  datatype VatReturn = VatReturn(
    outputVat: int,
    inputVatBills: int,
    inputVatExpenses: int,
    totalInputVat: int,
    netVatPayable: int)

  /** Output VAT less input VAT (bills plus expenses), every figure quantized. */
  function CalculateVatReturn(salesInvoicesVat: real, purchaseBillsVat: real, purchaseExpensesVat: real): (r: VatReturn)
    ensures r.totalInputVat == RoundHalfUpCents(purchaseBillsVat + purchaseExpensesVat)
    ensures r.netVatPayable == RoundHalfUpCents(salesInvoicesVat - (purchaseBillsVat + purchaseExpensesVat))
  {
    var totalInput := purchaseBillsVat + purchaseExpensesVat;
    VatReturn(
      RoundHalfUpCents(salesInvoicesVat),
      RoundHalfUpCents(purchaseBillsVat),
      RoundHalfUpCents(purchaseExpensesVat),
      RoundHalfUpCents(totalInput),
      RoundHalfUpCents(salesInvoicesVat - totalInput))
  }

  /**
   * On whole-cent inputs the return is consistent: total input is bills plus
   * expenses, and the net payable (negative for a refund) is output less input.
   */
  lemma VatReturnBalanced(sales: int, bills: int, expenses: int)
    ensures var r := CalculateVatReturn(CentsToReal(sales), CentsToReal(bills), CentsToReal(expenses));
      r.outputVat == sales && r.inputVatBills == bills && r.inputVatExpenses == expenses &&
      r.totalInputVat == bills + expenses && r.netVatPayable == r.outputVat - r.totalInputVat
  {
    RoundWholeCents(sales);
    RoundWholeCents(bills);
    RoundWholeCents(expenses);
    assert CentsToReal(bills) + CentsToReal(expenses) == CentsToReal(bills + expenses);
    RoundWholeCents(bills + expenses);
    assert CentsToReal(sales) - CentsToReal(bills + expenses) == CentsToReal(sales - (bills + expenses));
    RoundWholeCents(sales - (bills + expenses));
  }
}
