/**
 * The audit file the UAE Federal Tax Authority asks of a taxable person: one
 * row per issued (sales) and received (purchase) invoice with the tax code
 * derived from the invoice's effective VAT rate, the counts and totals of
 * the export, and the tab-separated text layout. Amounts are integer cents;
 * writing the files and their sizes are not part of this model.
 */
module FtaAudit {
  import opened Common

  const FafHeaders: seq<string> := [
    "TRN", "Company Name", "Invoice Number", "Invoice Date", "Invoice Type", "Customer TRN", "Customer Name",
    "Customer Country", "Supplier TRN", "Supplier Name", "Supplier Country", "Transaction Type",
    "Invoice Value (Excl. VAT)", "VAT Amount", "Total Invoice Value", "Currency", "Tax Code", "VAT Rate %",
    "Payment Date", "Payment Method", "Status"]

  /** The company the file is generated for (`company_data`). */
  datatype Company = Company(trn: Option<string>, legalName: Option<string>)

  /** A date field as stored: a date, a string, some other value, or absent. */
  datatype DateValue = DateVal(date: Date) | TextVal(text: string) | OtherVal | Absent

  /**
   * An invoice record as a dictionary of optional keys; sales read the
   * customer keys and `issue_date`, purchases the supplier keys,
   * `supplier_invoice_number` and `invoice_date`.
   */
  datatype AuditInvoice = AuditInvoice(
    invoiceNumber: Option<string>, supplierInvoiceNumber: Option<string>,
    issueDate: DateValue, invoiceDate: DateValue, invoiceType: Option<string>,
    customerTrn: Option<string>, customerName: Option<string>, customerCountry: Option<string>,
    supplierTrn: Option<string>, supplierName: Option<string>,
    subtotal: Option<int>, tax: Option<int>, total: Option<int>,
    currency: Option<string>, status: Option<string>)

  /**
   * One row of the file, one field per column of `FafHeaders`, in that
   * order. The date, the three amounts, the tax code and the rate are kept
   * as values; `Values` renders them as the text the row holds.
   */
  datatype FafRow = FafRow(
    trn: string, companyName: string, invoiceNumber: string, invoiceDate: DateValue, invoiceType: string,
    customerTrn: string, customerName: string, customerCountry: string,
    supplierTrn: string, supplierName: string, supplierCountry: string, transactionType: string,
    valueExclVat: int, vatAmount: int, totalValue: int, currency: string,
    taxCode: TaxCode, vatRate: real, paymentDate: string, paymentMethod: string, status: string)

  /** A row's text in column order (`row.get(header, "")` over `FafHeaders`): amounts and rate with two decimals. */
  function Values(r: FafRow): (vs: seq<string>)
    ensures |vs| == |FafHeaders|
  {
    [r.trn, r.companyName, r.invoiceNumber, FormatDate(r.invoiceDate), r.invoiceType, r.customerTrn, r.customerName,
     r.customerCountry, r.supplierTrn, r.supplierName, r.supplierCountry, r.transactionType,
     FormatCents(r.valueExclVat), FormatCents(r.vatAmount), FormatCents(r.totalValue), r.currency,
     TaxCodeText(r.taxCode), FormatCents(RoundHalfUpCents(r.vatRate)), r.paymentDate, r.paymentMethod, r.status]
  }

  // ---------------------------------------------------------------- classification

  /** Standard rated, zero rated, exempt, out of scope. */
  datatype TaxCode = SR | ZR | EX | OOS

  function TaxCodeText(c: TaxCode): string {
    match c
    case SR => "SR"
    case ZR => "ZR"
    case EX => "EX"
    case OOS => "OOS"
  }

  /**
   * `_get_tax_info`: a zero subtotal is out of scope; otherwise the effective
   * rate (0 for a negative subtotal) is zero rated at 0, standard rated (and
   * reported as exactly 5 %) within [4.5, 5.5], and exempt elsewhere.
   */
  function GetTaxInfo(subtotal: int, tax: int): (TaxCode, real) {
    if subtotal == 0 then (OOS, 0.0)
    else
      var rate := if subtotal > 0 then (tax as real) / (subtotal as real) * 100.0 else 0.0;
      if rate == 0.0 then (ZR, rate)
      else if 4.5 <= rate <= 5.5 then (SR, 5.0)
      else (EX, rate)
  }

  /**
   * Which code an invoice gets, stated on the amounts: out of scope iff the
   * subtotal is zero; zero rated iff the subtotal is negative or the tax is
   * zero; standard rated iff the effective rate is within [4.5, 5.5] %, and
   * then reported as 5 %; exempt otherwise, with its effective rate.
   */
  lemma TaxInfoSpec(subtotal: int, tax: int)
    ensures var r := GetTaxInfo(subtotal, tax);
      (r.0 == OOS <==> subtotal == 0)
      && (r.0 == ZR <==> subtotal < 0 || (subtotal > 0 && tax == 0))
      && (r.0 == SR <==> subtotal > 0 && 4.5 <= (tax as real) / (subtotal as real) * 100.0 <= 5.5)
      && (r.0 == SR ==> r.1 == 5.0)
      && (r.0 == EX ==> subtotal > 0 && r.1 == (tax as real) / (subtotal as real) * 100.0)
      && (r.0 == OOS || r.0 == ZR ==> r.1 == 0.0)
  {
    if subtotal > 0 {
      var rate := (tax as real) / (subtotal as real) * 100.0;
      assert rate == 0.0 <==> tax == 0;
    }
  }

  /** A standard-rated sale: 5 % of a positive subtotal is classified SR at 5.00. */
  lemma FivePercentIsStandardRated(subtotal: int)
    requires subtotal > 0 && subtotal % 20 == 0
    ensures GetTaxInfo(subtotal, subtotal / 20) == (SR, 5.0)
  {
    assert (subtotal / 20) as real / (subtotal as real) * 100.0 == 5.0;
  }

  /** `_map_invoice_type`: the UN/CEFACT document type code as a readable name. */
  function MapInvoiceType(typeCode: string): (r: string)
    ensures typeCode == "381" ==> r == "Credit Note"
    ensures typeCode == "480" ==> r == "Commercial Invoice"
    ensures typeCode == "81" ==> r == "Credit Note (Out of Scope)"
    ensures typeCode !in {"381", "480", "81"} ==> r == "Tax Invoice"
  {
    if typeCode == "380" then "Tax Invoice"
    else if typeCode == "381" then "Credit Note"
    else if typeCode == "480" then "Commercial Invoice"
    else if typeCode == "81" then "Credit Note (Out of Scope)"
    else "Tax Invoice"
  }

  /** `_format_date`: a date as YYYY-MM-DD, a string unchanged, anything else empty. */
  function FormatDate(v: DateValue): (r: string)
    ensures v.DateVal? ==> |r| == 10 && r[4] == '-' && r[7] == '-' && ParseYmd(r) == Some(v.date)
    ensures v.TextVal? ==> r == v.text
    ensures v.OtherVal? || v.Absent? ==> r == ""
  {
    match v
    case DateVal(d) => FormatYmdRoundTrip(d); FormatYmd(d)
    case TextVal(s) => s
    case _ => ""
  }

  // ---------------------------------------------------------------- rows

  /** The columns both kinds of row fill alike: amounts, currency, tax code and rate, status. */
  function AmountColumns(inv: AuditInvoice): (int, int, int, string, TaxCode, real, string)
  {
    var info := GetTaxInfo(GetOrInt(inv.subtotal, 0), GetOrInt(inv.tax, 0));
    (GetOrInt(inv.subtotal, 0), GetOrInt(inv.tax, 0), GetOrInt(inv.total, 0),
     GetOr(inv.currency, "AED"), info.0, info.1, GetOr(inv.status, ""))
  }

  /** `_create_sales_row` */
  function SalesRow(company: Company, inv: AuditInvoice): FafRow {
    var a := AmountColumns(inv);
    FafRow(GetOr(company.trn, ""), GetOr(company.legalName, ""), GetOr(inv.invoiceNumber, ""),
           inv.issueDate, MapInvoiceType(GetOr(inv.invoiceType, "")),
           if Truthy(inv.customerTrn) then inv.customerTrn.value else "N/A",
           GetOr(inv.customerName, ""), GetOr(inv.customerCountry, "AE"),
           "", "", "", "Sale",
           a.0, a.1, a.2, a.3, a.4, a.5, "", "", a.6)
  }

  /** `_create_purchase_row` */
  function PurchaseRow(company: Company, inv: AuditInvoice): FafRow {
    var a := AmountColumns(inv);
    FafRow(GetOr(company.trn, ""), GetOr(company.legalName, ""), GetOr(inv.supplierInvoiceNumber, ""),
           inv.invoiceDate, MapInvoiceType(GetOr(inv.invoiceType, "")),
           "", "", "",
           GetOr(inv.supplierTrn, ""), GetOr(inv.supplierName, ""), "AE", "Purchase",
           a.0, a.1, a.2, a.3, a.4, a.5, "", "", a.6)
  }

  /**
   * A sales row leaves the supplier columns empty, says "Sale", shows "N/A"
   * for a missing or empty customer TRN, defaults the customer country to AE
   * and carries the tax code of the invoice's amounts.
   */
  lemma SalesRowShape(company: Company, inv: AuditInvoice)
    ensures var r := SalesRow(company, inv);
      r.supplierTrn == "" && r.supplierName == "" && r.supplierCountry == "" && r.transactionType == "Sale"
      && r.customerTrn == (if Truthy(inv.customerTrn) then inv.customerTrn.value else "N/A")
      && r.customerCountry == GetOr(inv.customerCountry, "AE")
      && r.invoiceNumber == GetOr(inv.invoiceNumber, "")
      && r.taxCode == GetTaxInfo(GetOrInt(inv.subtotal, 0), GetOrInt(inv.tax, 0)).0
  {
  }

  /**
   * A purchase row leaves the customer columns empty, says "Purchase", puts
   * the supplier in AE and takes its number from the supplier's invoice number.
   */
  lemma PurchaseRowShape(company: Company, inv: AuditInvoice)
    ensures var r := PurchaseRow(company, inv);
      r.customerTrn == "" && r.customerName == "" && r.customerCountry == ""
      && r.transactionType == "Purchase" && r.supplierCountry == "AE"
      && r.invoiceNumber == GetOr(inv.supplierInvoiceNumber, "")
      && r.supplierTrn == GetOr(inv.supplierTrn, "")
      && r.taxCode == GetTaxInfo(GetOrInt(inv.subtotal, 0), GetOrInt(inv.tax, 0)).0
  {
  }

  function SalesRows(company: Company, invs: seq<AuditInvoice>): (rows: seq<FafRow>)
    ensures |rows| == |invs|
  {
    if invs == [] then [] else SalesRows(company, invs[..|invs| - 1]) + [SalesRow(company, invs[|invs| - 1])]
  }

  function PurchaseRows(company: Company, invs: seq<AuditInvoice>): (rows: seq<FafRow>)
    ensures |rows| == |invs|
  {
    if invs == [] then [] else PurchaseRows(company, invs[..|invs| - 1]) + [PurchaseRow(company, invs[|invs| - 1])]
  }

  lemma {:induction false} SalesRowsAt(company: Company, invs: seq<AuditInvoice>, k: nat)
    requires k < |invs|
    ensures SalesRows(company, invs)[k] == SalesRow(company, invs[k])
    decreases |invs|
  {
    if k < |invs| - 1 {
      SalesRowsAt(company, invs[..|invs| - 1], k);
    }
  }

  lemma {:induction false} PurchaseRowsAt(company: Company, invs: seq<AuditInvoice>, k: nat)
    requires k < |invs|
    ensures PurchaseRows(company, invs)[k] == PurchaseRow(company, invs[k])
    decreases |invs|
  {
    if k < |invs| - 1 {
      PurchaseRowsAt(company, invs[..|invs| - 1], k);
    }
  }

  /** All rows: every sale, in order, then every purchase, in order. */
  function AuditRows(company: Company, outgoing: seq<AuditInvoice>, inward: seq<AuditInvoice>): seq<FafRow> {
    SalesRows(company, outgoing) + PurchaseRows(company, inward)
  }

  /** The first rows are the sales and the rest the purchases, one row per invoice. */
  lemma AuditRowsOrder(company: Company, outgoing: seq<AuditInvoice>, inward: seq<AuditInvoice>)
    ensures |AuditRows(company, outgoing, inward)| == |outgoing| + |inward|
    ensures forall k :: 0 <= k < |outgoing| ==> AuditRows(company, outgoing, inward)[k].transactionType == "Sale"
    ensures forall k :: |outgoing| <= k < |outgoing| + |inward| ==>
      AuditRows(company, outgoing, inward)[k].transactionType == "Purchase"
  {
    var rows := AuditRows(company, outgoing, inward);
    forall k | 0 <= k < |outgoing|
      ensures rows[k].transactionType == "Sale"
    {
      SalesRowsAt(company, outgoing, k);
      SalesRowShape(company, outgoing[k]);
    }
    forall k | |outgoing| <= k < |outgoing| + |inward|
      ensures rows[k].transactionType == "Purchase"
    {
      PurchaseRowsAt(company, inward, k - |outgoing|);
      PurchaseRowShape(company, inward[k - |outgoing|]);
    }
  }

  // ---------------------------------------------------------------- statistics

  datatype Stats = Stats(totalInvoices: nat, totalSales: nat, totalPurchases: nat,
                         totalCustomers: nat, totalSuppliers: nat, totalAmount: int, totalVat: int)

  /** The customer TRNs of the sales, "" standing for a missing one. */
  function CustomerTrns(invs: seq<AuditInvoice>): set<string> {
    set k | 0 <= k < |invs| :: GetOr(invs[k].customerTrn, "")
  }

  function SupplierTrns(invs: seq<AuditInvoice>): set<string> {
    set k | 0 <= k < |invs| :: GetOr(invs[k].supplierTrn, "")
  }

  function SumTotals(invs: seq<AuditInvoice>): int {
    if invs == [] then 0 else SumTotals(invs[..|invs| - 1]) + GetOrInt(invs[|invs| - 1].total, 0)
  }

  function SumTaxes(invs: seq<AuditInvoice>): int {
    if invs == [] then 0 else SumTaxes(invs[..|invs| - 1]) + GetOrInt(invs[|invs| - 1].tax, 0)
  }

  lemma CustomerTrnsStep(invs: seq<AuditInvoice>, i: nat)
    requires i < |invs|
    ensures CustomerTrns(invs[..i + 1]) == CustomerTrns(invs[..i]) + {GetOr(invs[i].customerTrn, "")}
  {
    var p := invs[..i + 1];
    assert p[i] == invs[i];
    assert forall k | 0 <= k < i :: p[k] == invs[..i][k];
  }

  lemma SupplierTrnsStep(invs: seq<AuditInvoice>, i: nat)
    requires i < |invs|
    ensures SupplierTrns(invs[..i + 1]) == SupplierTrns(invs[..i]) + {GetOr(invs[i].supplierTrn, "")}
  {
    var p := invs[..i + 1];
    assert p[i] == invs[i];
    assert forall k | 0 <= k < i :: p[k] == invs[..i][k];
  }

  /** There are never more distinct customers than sales. */
  lemma {:induction false} DistinctCustomersBound(invs: seq<AuditInvoice>)
    ensures |CustomerTrns(invs) - {""}| <= |CustomerTrns(invs)| <= |invs|
    decreases |invs|
  {
    if invs != [] {
      var n := |invs| - 1;
      DistinctCustomersBound(invs[..n]);
      CustomerTrnsStep(invs, n);
      assert invs[..n + 1] == invs;
    }
  }

  /** The first loop of `generate_csv`: one row per sale, counting it and adding up its TRN and amounts. */
  method SalesPass(company: Company, outgoing: seq<AuditInvoice>)
    returns (rows: seq<FafRow>, totalSales: nat, customers: set<string>, amount: int, vat: int)
    ensures rows == SalesRows(company, outgoing) && totalSales == |outgoing|
    ensures customers == CustomerTrns(outgoing)
    ensures amount == SumTotals(outgoing) && vat == SumTaxes(outgoing)
  {
    rows, totalSales, customers, amount, vat := [], 0, {}, 0, 0;
    var i := 0;
    while i < |outgoing|
      invariant 0 <= i <= |outgoing|
      invariant rows == SalesRows(company, outgoing[..i]) && totalSales == i
      invariant customers == CustomerTrns(outgoing[..i])
      invariant amount == SumTotals(outgoing[..i]) && vat == SumTaxes(outgoing[..i])
    {
      var invoice := outgoing[i];
      assert outgoing[..i + 1][..i] == outgoing[..i];
      rows := rows + [SalesRow(company, invoice)];
      totalSales := totalSales + 1;
      CustomerTrnsStep(outgoing, i);
      customers := customers + {GetOr(invoice.customerTrn, "")};
      amount := amount + GetOrInt(invoice.total, 0);
      vat := vat + GetOrInt(invoice.tax, 0);
      i := i + 1;
    }
    assert outgoing[..i] == outgoing;
  }

  /** The second loop of `generate_csv`, over the purchases and their supplier TRNs. */
  method PurchasePass(company: Company, inward: seq<AuditInvoice>)
    returns (rows: seq<FafRow>, totalPurchases: nat, suppliers: set<string>, amount: int, vat: int)
    ensures rows == PurchaseRows(company, inward) && totalPurchases == |inward|
    ensures suppliers == SupplierTrns(inward)
    ensures amount == SumTotals(inward) && vat == SumTaxes(inward)
  {
    rows, totalPurchases, suppliers, amount, vat := [], 0, {}, 0, 0;
    var j := 0;
    while j < |inward|
      invariant 0 <= j <= |inward|
      invariant rows == PurchaseRows(company, inward[..j]) && totalPurchases == j
      invariant suppliers == SupplierTrns(inward[..j])
      invariant amount == SumTotals(inward[..j]) && vat == SumTaxes(inward[..j])
    {
      var invoice := inward[j];
      assert inward[..j + 1][..j] == inward[..j];
      rows := rows + [PurchaseRow(company, invoice)];
      totalPurchases := totalPurchases + 1;
      SupplierTrnsStep(inward, j);
      suppliers := suppliers + {GetOr(invoice.supplierTrn, "")};
      amount := amount + GetOrInt(invoice.total, 0);
      vat := vat + GetOrInt(invoice.tax, 0);
      j := j + 1;
    }
    assert inward[..j] == inward;
  }

  /**
   * `generate_csv` without the file: the rows in order, and the statistics
   * accumulated over the two loops, with the TRN sets counted without the
   * empty TRN.
   */
  method GenerateCsv(company: Company, outgoing: seq<AuditInvoice>, inward: seq<AuditInvoice>)
    returns (rows: seq<FafRow>, stats: Stats)
    ensures rows == AuditRows(company, outgoing, inward)
    ensures stats.totalSales == |outgoing| && stats.totalPurchases == |inward|
    ensures stats.totalInvoices == |outgoing| + |inward|
    ensures stats.totalCustomers == |CustomerTrns(outgoing) - {""}|
    ensures stats.totalSuppliers == |SupplierTrns(inward) - {""}|
    ensures stats.totalAmount == SumTotals(outgoing) + SumTotals(inward)
    ensures stats.totalVat == SumTaxes(outgoing) + SumTaxes(inward)
  {
    var salesRows, totalSales, customers, salesAmount, salesVat := SalesPass(company, outgoing);
    var purchaseRows, totalPurchases, suppliers, purchaseAmount, purchaseVat := PurchasePass(company, inward);
    rows := salesRows + purchaseRows;
    stats := Stats(totalSales + totalPurchases, totalSales, totalPurchases,
                   |customers - {""}|, |suppliers - {""}|, salesAmount + purchaseAmount, salesVat + purchaseVat);
  }

  // ---------------------------------------------------------------- the tab-separated layout

  /** One line of the text file: the values joined by tabs, then a newline. */
  function TxtLine(values: seq<string>): string {
    Join("\t", values) + "\n"
  }

  /** The line of one row. */
  function RowLine(r: FafRow): string {
    TxtLine(Values(r))
  }

  /** The lines of a list of items, written one after the other. */
  function LinesText<T>(items: seq<T>, line: T -> string): string {
    if items == [] then "" else LinesText(items[..|items| - 1], line) + line(items[|items| - 1])
  }

  /** The text file: the header line, then one line per row. */
  function TxtDocument(rows: seq<FafRow>): string {
    TxtLine(FafHeaders) + LinesText(rows, RowLine)
  }

  /** The writing loop: the header, then the line of each item in turn. */
  method WriteLines<T>(header: string, items: seq<T>, line: T -> string) returns (text: string)
    ensures text == header + LinesText(items, line)
  {
    text := header;
    for k := 0 to |items|
      invariant text == header + LinesText(items[..k], line)
    {
      assert items[..k + 1][..k] == items[..k];
      text := text + line(items[k]);
    }
    assert items[..|items|] == items;
  }

  /** The first row-building loop of `generate_txt`: one sales row per outgoing invoice. */
  method CollectSalesRows(company: Company, outgoing: seq<AuditInvoice>) returns (rows: seq<FafRow>)
    ensures rows == SalesRows(company, outgoing)
  {
    rows := [];
    for i := 0 to |outgoing|
      invariant rows == SalesRows(company, outgoing[..i])
    {
      assert outgoing[..i + 1][..i] == outgoing[..i];
      rows := rows + [SalesRow(company, outgoing[i])];
    }
    assert outgoing[..|outgoing|] == outgoing;
  }

  /** The second row-building loop of `generate_txt`: one purchase row per inward invoice, appended. */
  method AppendPurchaseRows(company: Company, inward: seq<AuditInvoice>, before: seq<FafRow>) returns (rows: seq<FafRow>)
    ensures rows == before + PurchaseRows(company, inward)
  {
    rows := before;
    for j := 0 to |inward|
      invariant rows == before + PurchaseRows(company, inward[..j])
    {
      assert inward[..j + 1][..j] == inward[..j];
      rows := rows + [PurchaseRow(company, inward[j])];
    }
    assert inward[..|inward|] == inward;
  }

  /**
   * `generate_txt` without the file: the text written, and the number of
   * invoices it reports.
   */
  method GenerateTxt(company: Company, outgoing: seq<AuditInvoice>, inward: seq<AuditInvoice>)
    returns (text: string, totalInvoices: nat)
    ensures text == TxtDocument(AuditRows(company, outgoing, inward))
    ensures totalInvoices == |outgoing| + |inward|
  {
    var salesRows := CollectSalesRows(company, outgoing);
    var rows := AppendPurchaseRows(company, inward, salesRows);
    totalInvoices := |rows|;
    text := WriteLines(TxtLine(FafHeaders), rows, RowLine);
  }

  /**
   * A line of the text file splits back into the row's values, one per
   * column, as long as no value holds a tab.
   */
  lemma TxtLineFields(r: FafRow)
    requires forall v :: v in Values(r) ==> !ContainsChar(v, '\t')
    ensures var line := RowLine(r);
      line[|line| - 1] == '\n' && Split(line[..|line| - 1], '\t') == Values(r)
      && |Split(line[..|line| - 1], '\t')| == |FafHeaders|
  {
    var line := RowLine(r);
    assert line[..|line| - 1] == Join("\t", Values(r));
    SplitJoin(Values(r), '\t');
  }

  lemma {:induction false} LinesTextSplit<T>(items: seq<T>, k: nat, line: T -> string)
    requires k <= |items|
    ensures LinesText(items, line) == LinesText(items[..k], line) + LinesText(items[k..], line)
    decreases |items|
  {
    if k == |items| {
      assert items[..k] == items && items[k..] == [];
    } else {
      var n := |items| - 1;
      LinesTextSplit(items[..n], k, line);
      assert items[..n][..k] == items[..k];
      assert items[k..] == items[..n][k..] + [items[n]];
      assert items[k..][..|items[k..]| - 1] == items[..n][k..];
      AppendAssoc(LinesText(items[..k], line), LinesText(items[..n][k..], line), line(items[n]));
    }
  }

  /** The k-th item's line sits right after the lines of the items before it. */
  lemma LinesTextAt<T>(items: seq<T>, k: nat, line: T -> string)
    requires k < |items|
    ensures LinesText(items, line) == LinesText(items[..k], line) + line(items[k]) + LinesText(items[k + 1..], line)
  {
    var rest := items[k..];
    LinesTextSplit(items, k, line);
    LinesTextSplit(rest, 1, line);
    assert rest[..1] == [items[k]];
    assert rest[1..] == items[k + 1..];
    LinesTextSingle(items[k], line);
  }

  lemma LinesTextSingle<T>(x: T, line: T -> string)
    ensures LinesText([x], line) == line(x)
  {
    assert [x][..0] == [];
  }
}
