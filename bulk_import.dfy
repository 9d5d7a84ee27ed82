/**
 * Bulk upload of invoices and vendors from a spreadsheet: the file-name
 * check, the required-column check, the per-row rules with their numbered
 * error messages, and the records built from error-free rows. Reading the
 * file is a parameter: the table pandas produced, or the message of the
 * exception it raised.
 */
module BulkImport {
  import opened Common

  /**
   * A non-empty spreadsheet cell: `str(value)`, `float(value)` when that
   * conversion succeeds, and `bool(value)`.
   */
  datatype Cell = Cell(text: string, number: Option<real>, truthy: bool)

  /** One row of the data frame by column name; None is a missing value (`pd.isna`). */
  type Row = map<string, Option<Cell>>

  datatype Table = Table(columns: set<string>, rows: seq<Row>)

  /** The triple every validator returns: (is_valid, parsed records, error messages). */
  datatype FileResult<T> = FileResult(valid: bool, data: seq<T>, errors: seq<string>)

  const UnsupportedFormat := "Unsupported file format. Please upload CSV or Excel files."

  /** The cell of a column; only ever used for required columns, which are present. */
  function At(row: Row, col: string): Option<Cell> {
    if col in row then row[col] else None
  }

  /** `pd.isna(v) or str(v).strip() == ''` */
  predicate Blank(c: Option<Cell>) {
    c.None? || Strip(c.value.text) == ""
  }

  /** `str(v).strip()`; a missing value prints as "nan". */
  function StrippedText(c: Option<Cell>): string {
    if c.None? then "nan" else Strip(c.value.text)
  }

  /** `str(v).strip() if not pd.isna(v) else None` */
  function OptionalText(c: Option<Cell>): Option<string> {
    if c.None? then None else Some(Strip(c.value.text))
  }

  /** `float(v)` raises on a present cell that is not a number. */
  predicate FloatFails(c: Option<Cell>) {
    c.Some? && c.value.number.None?
  }

  /** `float(v) if not pd.isna(v) else default`, for a cell where `float` succeeds. */
  function FloatOr(c: Option<Cell>, default: real): real
    requires !FloatFails(c)
  {
    if c.None? then default else c.value.number.value
  }

  /** The message of the ValueError `float` raises. */
  function ConversionError(c: Cell): string {
    "could not convert string to float: '" + c.text + "'"
  }

  /** The message of the KeyError raised by indexing a row with an absent column. */
  function KeyErrorText(col: string): string {
    "'" + col + "'"
  }

  /** `filename.endswith(('.xlsx', '.xls', '.csv'))` */
  predicate SupportedFile(filename: string) {
    EndsWith(filename, ".xlsx") || EndsWith(filename, ".xls") || EndsWith(filename, ".csv")
  }

  /** The required columns absent from the table, in the order they are required. */
  function MissingColumns(required: seq<string>, columns: set<string>): (r: seq<string>)
    ensures forall c :: c in r <==> c in required && c !in columns
    ensures |r| <= |required|
  {
    if required == [] then []
    else (if required[0] in columns then [] else [required[0]]) + MissingColumns(required[1..], columns)
  }

  /** Missing columns are reported part by part, so a later column never comes before an earlier one. */
  lemma {:induction false} MissingColumnsConcat(a: seq<string>, b: seq<string>, columns: set<string>)
    ensures MissingColumns(a + b, columns) == MissingColumns(a, columns) + MissingColumns(b, columns)
  {
    if a != [] {
      assert (a + b)[0] == a[0] && (a + b)[1..] == a[1..] + b;
      MissingColumnsConcat(a[1..], b, columns);
    } else {
      assert a + b == b;
    }
  }

  /** A single required column is reported exactly when the table lacks it. */
  lemma MissingColumn(c: string, columns: set<string>)
    ensures MissingColumns([c], columns) == if c in columns then [] else [c]
  {
    assert [c][1..] == [];
  }

  /** `f"Row {row_num}: "` */
  function RowPrefix(n: nat): string {
    "Row " + NatToString(n) + ": "
  }

  /** What can be wrong with a row, one value per rule. */
  datatype Problem =
    | InvoiceNumberRequired | TrnRequired | CustomerNameRequired | QuantityNotPositive | QuantityInvalid
    | UnitPriceNegative | UnitPriceInvalid | InvoiceTypeInvalid | VendorNameRequired | EmailRequired

  function ProblemText(p: Problem): string {
    match p
    case InvoiceNumberRequired => "Invoice number is required"
    case TrnRequired => "Valid 15-digit TRN is required"
    case CustomerNameRequired => "Customer name is required"
    case QuantityNotPositive => "Quantity must be greater than 0"
    case QuantityInvalid => "Invalid quantity value"
    case UnitPriceNegative => "Unit price cannot be negative"
    case UnitPriceInvalid => "Invalid unit price value"
    case InvoiceTypeInvalid => "Invalid invoice type. Must be TAX_INVOICE, CREDIT_NOTE, or COMMERCIAL"
    case VendorNameRequired => "Vendor name is required"
    case EmailRequired => "Valid email address is required"
  }

  /** `[p]` when the rule failed. */
  function Flag(failed: bool, p: Problem): seq<Problem> {
    if failed then [p] else []
  }

  /** The messages of a row's problems, each numbered with the row's spreadsheet line. */
  function Messages(problems: seq<Problem>, n: nat): (r: seq<string>)
    ensures |r| == |problems|
    ensures forall k :: 0 <= k < |r| ==> r[k] == RowPrefix(n) + ProblemText(problems[k])
  {
    if problems == [] then [] else [RowPrefix(n) + ProblemText(problems[0])] + Messages(problems[1..], n)
  }

  /** Every message names the row it is about. */
  lemma MessagesNumbered(problems: seq<Problem>, n: nat)
    ensures forall e :: e in Messages(problems, n) ==> StartsWith(e, RowPrefix(n))
  {
    var m := Messages(problems, n);
    forall e | e in m ensures StartsWith(e, RowPrefix(n)) {
      var k :| 0 <= k < |m| && m[k] == e;
      PrefixConcat(RowPrefix(n), ProblemText(problems[k]));
    }
  }

  // ---------------------------------------------------------------- the row loop

  /**
   * The loop over the rows from index `i` on: a row with errors adds them
   * (numbered `index + 2`, the spreadsheet line under the header), a row
   * without is parsed and added; an exception while parsing aborts the file.
   */
  function RowsFrom<T>(rows: seq<Row>, i: nat, errors: seq<string>, parsed: seq<T>,
                       check: (Row, nat) -> seq<string>, parse: Row -> Result<T, string>): Result<(seq<string>, seq<T>), string>
    requires i <= |rows|
    decreases |rows| - i
  {
    if i == |rows| then Success((errors, parsed))
    else
      var rowErrors := check(rows[i], i + 2);
      if rowErrors != [] then RowsFrom(rows, i + 1, errors + rowErrors, parsed, check, parse)
      else match parse(rows[i])
        case Failure(e) => Failure(e)
        case Success(record) => RowsFrom(rows, i + 1, errors, parsed + [record], check, parse)
  }

  /** Every row's errors, in row order: an independent account of the error list. */
  function AllRowErrors(rows: seq<Row>, i: nat, check: (Row, nat) -> seq<string>): seq<string>
    requires i <= |rows|
    decreases |rows| - i
  {
    if i == |rows| then [] else check(rows[i], i + 2) + AllRowErrors(rows, i + 1, check)
  }

  /** The records of the error-free rows, in row order, when all of them parse. */
  function CleanRecords<T>(rows: seq<Row>, i: nat, check: (Row, nat) -> seq<string>, parse: Row -> Result<T, string>): seq<T>
    requires i <= |rows|
    decreases |rows| - i
  {
    if i == |rows| then []
    else if check(rows[i], i + 2) != [] || parse(rows[i]).Failure? then CleanRecords(rows, i + 1, check, parse)
    else [parse(rows[i]).value] + CleanRecords(rows, i + 1, check, parse)
  }

  /**
   * The loop succeeds exactly when every error-free row parses; it then
   * yields all rows' errors and the records of the error-free rows.
   */
  lemma {:induction false} RowsFromOutcome<T>(rows: seq<Row>, i: nat, errors: seq<string>, parsed: seq<T>,
                                              check: (Row, nat) -> seq<string>, parse: Row -> Result<T, string>)
    requires i <= |rows|
    ensures RowsFrom(rows, i, errors, parsed, check, parse).Success? <==>
      (forall j :: i <= j < |rows| && check(rows[j], j + 2) == [] ==> parse(rows[j]).Success?)
    ensures RowsFrom(rows, i, errors, parsed, check, parse).Success? ==>
      RowsFrom(rows, i, errors, parsed, check, parse).value
        == (errors + AllRowErrors(rows, i, check), parsed + CleanRecords(rows, i, check, parse))
    decreases |rows| - i
  {
    if i < |rows| {
      var rowErrors := check(rows[i], i + 2);
      if rowErrors != [] {
        RowsFromOutcome(rows, i + 1, errors + rowErrors, parsed, check, parse);
        AppendAssoc(errors, rowErrors, AllRowErrors(rows, i + 1, check));
      } else if parse(rows[i]).Success? {
        RowsFromOutcome(rows, i + 1, errors, parsed + [parse(rows[i]).value], check, parse);
        AppendAssoc(parsed, [parse(rows[i]).value], CleanRecords(rows, i + 1, check, parse));
        assert [] + AllRowErrors(rows, i + 1, check) == AllRowErrors(rows, i + 1, check);
      }
    } else {
      assert errors + [] == errors;
      assert parsed + [] == parsed;
    }
  }

  /** The row loop, appending to the error list and the record list as it goes. */
  method ValidateRows<T>(rows: seq<Row>, check: (Row, nat) -> seq<string>, parse: Row -> Result<T, string>)
    returns (r: Result<(seq<string>, seq<T>), string>)
    ensures r == RowsFrom(rows, 0, [], [], check, parse)
  {
    var errors: seq<string> := [];
    var parsed: seq<T> := [];
    var i := 0;
    while i < |rows|
      invariant 0 <= i <= |rows|
      invariant RowsFrom(rows, i, errors, parsed, check, parse) == RowsFrom(rows, 0, [], [], check, parse)
    {
      var rowErrors := check(rows[i], i + 2);
      if rowErrors != [] {
        errors := errors + rowErrors;
      } else {
        var record := parse(rows[i]);
        if record.Failure? {
          return Failure(record.error);
        }
        parsed := parsed + [record.value];
      }
      i := i + 1;
    }
    r := Success((errors, parsed));
  }

  /** The file-level outcome of a validator with the given required columns and row rules. */
  function FileOutcome<T>(filename: string, read: Result<Table, string>, required: seq<string>,
                          check: (Row, nat) -> seq<string>, parse: Row -> Result<T, string>): FileResult<T>
  {
    if !SupportedFile(filename) then FileResult(false, [], [UnsupportedFormat])
    else if read.Failure? then FileResult(false, [], ["File parsing error: " + read.error])
    else
      var missing := MissingColumns(required, read.value.columns);
      if missing != [] then FileResult(false, [], ["Missing required columns: " + Join(", ", missing)])
      else match RowsFrom(read.value.rows, 0, [], [], check, parse)
        case Failure(e) => FileResult(false, [], ["File parsing error: " + e])
        case Success((errors, parsed)) => FileResult(errors == [], parsed, errors)
  }

  /** The steps both validators share; `read` is only consulted for a supported file name. */
  method ValidateFile<T>(filename: string, read: Result<Table, string>, required: seq<string>,
                         check: (Row, nat) -> seq<string>, parse: Row -> Result<T, string>) returns (r: FileResult<T>)
    ensures r == FileOutcome(filename, read, required, check, parse)
  {
    if !SupportedFile(filename) {
      return FileResult(false, [], [UnsupportedFormat]);
    }
    if read.Failure? {
      return FileResult(false, [], ["File parsing error: " + read.error]);
    }
    var missing := MissingColumns(required, read.value.columns);
    if missing != [] {
      return FileResult(false, [], ["Missing required columns: " + Join(", ", missing)]);
    }
    var rows := ValidateRows(read.value.rows, check, parse);
    if rows.Failure? {
      return FileResult(false, [], ["File parsing error: " + rows.error]);
    }
    var (errors, parsed) := rows.value;
    r := FileResult(errors == [], parsed, errors);
  }

  /**
   * What every validator promises: an unsupported name or a missing column
   * yields exactly one error and no records; otherwise, unless a parsing
   * exception aborts the file, the errors are all rows' errors in order, the
   * records are those of the error-free rows, and the file is valid iff there
   * are no errors.
   */
  lemma FileOutcomeSpec<T>(filename: string, read: Result<Table, string>, required: seq<string>,
                           check: (Row, nat) -> seq<string>, parse: Row -> Result<T, string>)
    ensures var r := FileOutcome(filename, read, required, check, parse);
      r.valid <==> r.errors == []
    ensures !SupportedFile(filename) ==> FileOutcome(filename, read, required, check, parse) == FileResult(false, [], [UnsupportedFormat])
    ensures SupportedFile(filename) && read.Success? && MissingColumns(required, read.value.columns) != [] ==>
      FileOutcome(filename, read, required, check, parse).errors
        == ["Missing required columns: " + Join(", ", MissingColumns(required, read.value.columns))]
    ensures (SupportedFile(filename) && read.Success? && MissingColumns(required, read.value.columns) == []
             && RowsFrom(read.value.rows, 0, [], [], check, parse).Success?) ==>
      var r := FileOutcome(filename, read, required, check, parse);
      r.errors == AllRowErrors(read.value.rows, 0, check) && r.data == CleanRecords(read.value.rows, 0, check, parse)
  {
    if SupportedFile(filename) && read.Success? {
      RowsFromOutcome(read.value.rows, 0, [], [], check, parse);
      assert [] + AllRowErrors(read.value.rows, 0, check) == AllRowErrors(read.value.rows, 0, check);
      assert [] + CleanRecords(read.value.rows, 0, check, parse) == CleanRecords(read.value.rows, 0, check, parse);
    }
  }

  // ---------------------------------------------------------------- invoices

  const InvoiceRequiredColumns := ["invoice_number", "issue_date", "invoice_type", "customer_trn", "customer_name",
                                   "item_description", "quantity", "unit_price", "tax_percent"]

  /** A parsed invoice row; `unitPrice` is None when the cell was empty and `float` gave NaN. */
  datatype InvoiceData = InvoiceData(invoiceNumber: string, issueDate: string, dueDate: Option<string>,
                                     invoiceType: string, customerTrn: string, customerName: string,
                                     customerEmail: Option<string>, customerAddress: Option<string>,
                                     itemDescription: string, quantity: real, unitPrice: Option<real>,
                                     taxPercent: real, discountAmount: real, notes: Option<string>)

  /** The invoice type, upper-cased; a missing value means TAX_INVOICE. */
  function InvoiceTypeOf(c: Option<Cell>): string {
    if c.None? then "TAX_INVOICE" else Upper(c.value.text)
  }

  predicate KnownInvoiceType(t: string) {
    t == "TAX_INVOICE" || t == "CREDIT_NOTE" || t == "COMMERCIAL"
  }

  /** A present TRN whose stripped text has fifteen characters (the digits are not checked). */
  predicate TrnShaped(c: Option<Cell>) {
    c.Some? && |Strip(c.value.text)| == 15
  }

  /** A missing quantity counts as 0 and so fails. */
  predicate QuantityAccepted(c: Option<Cell>) {
    c.Some? && c.value.number.Some? && c.value.number.value > 0.0
  }

  /** A missing unit price counts as 0 and so passes. */
  predicate UnitPriceAccepted(c: Option<Cell>) {
    c.None? || (c.value.number.Some? && c.value.number.value >= 0.0)
  }

  /** The invoice row rules, each on its own. */
  predicate InvoiceRowAcceptable(row: Row) {
    !Blank(At(row, "invoice_number")) && TrnShaped(At(row, "customer_trn")) && !Blank(At(row, "customer_name"))
    && QuantityAccepted(At(row, "quantity")) && UnitPriceAccepted(At(row, "unit_price"))
    && KnownInvoiceType(InvoiceTypeOf(At(row, "invoice_type")))
  }

  /** The quantity rule: a missing or non-positive value, or one `float` rejects. */
  function QuantityProblems(c: Option<Cell>): (r: seq<Problem>)
    ensures r == [] <==> QuantityAccepted(c)
    ensures |r| <= 1
  {
    Flag(c.None? || (c.value.number.Some? && c.value.number.value <= 0.0), QuantityNotPositive)
    + Flag(FloatFails(c), QuantityInvalid)
  }

  /** The unit-price rule: a negative value, or one `float` rejects. */
  function UnitPriceProblems(c: Option<Cell>): (r: seq<Problem>)
    ensures r == [] <==> UnitPriceAccepted(c)
    ensures |r| <= 1
  {
    Flag(c.Some? && c.value.number.Some? && c.value.number.value < 0.0, UnitPriceNegative)
    + Flag(FloatFails(c), UnitPriceInvalid)
  }

  /** The problems of one invoice row, in the order the rules are checked. */
  function InvoiceRowProblems(row: Row): seq<Problem> {
    Flag(Blank(At(row, "invoice_number")), InvoiceNumberRequired)
    + Flag(!TrnShaped(At(row, "customer_trn")), TrnRequired)
    + Flag(Blank(At(row, "customer_name")), CustomerNameRequired)
    + QuantityProblems(At(row, "quantity"))
    + UnitPriceProblems(At(row, "unit_price"))
    + Flag(!KnownInvoiceType(InvoiceTypeOf(At(row, "invoice_type"))), InvoiceTypeInvalid)
  }

  /** A row has no problem exactly when it meets every rule, and at most one problem per rule. */
  lemma InvoiceRowProblemsSpec(row: Row)
    ensures InvoiceRowProblems(row) == [] <==> InvoiceRowAcceptable(row)
    ensures |InvoiceRowProblems(row)| <= 6
  {
  }

  function InvoiceRowErrors(row: Row, n: nat): seq<string> {
    Messages(InvoiceRowProblems(row), n)
  }

  /** The first exception reading an error-free row raises, if any, in the order the fields are read. */
  function InvoiceParseError(row: Row): Option<string> {
    var tax := At(row, "tax_percent");
    if "due_date" !in row then Some(KeyErrorText("due_date"))
    else if "customer_email" !in row then Some(KeyErrorText("customer_email"))
    else if "customer_address" !in row then Some(KeyErrorText("customer_address"))
    else if FloatFails(tax) then Some(ConversionError(tax.value))
    else if "discount_amount" !in row then Some(KeyErrorText("discount_amount"))
    else if FloatFails(row["discount_amount"]) then Some(ConversionError(row["discount_amount"].value))
    else if "notes" !in row then Some(KeyErrorText("notes"))
    else None
  }

  /** The record built from a row that raises nothing, with its defaults. */
  function BuildInvoice(row: Row, today: string): InvoiceData
    requires InvoiceParseError(row).None?
  {
    var quantity := At(row, "quantity");
    var price := At(row, "unit_price");
    InvoiceData(
      StrippedText(At(row, "invoice_number")),
      GetOr(OptionalText(At(row, "issue_date")), today),
      OptionalText(row["due_date"]),
      InvoiceTypeOf(At(row, "invoice_type")),
      StrippedText(At(row, "customer_trn")),
      StrippedText(At(row, "customer_name")),
      OptionalText(row["customer_email"]),
      OptionalText(row["customer_address"]),
      StrippedText(At(row, "item_description")),
      if quantity.Some? && quantity.value.number.Some? then quantity.value.number.value else 0.0,
      if price.Some? && price.value.number.Some? then Some(price.value.number.value) else None,
      FloatOr(At(row, "tax_percent"), 5.0),
      FloatOr(row["discount_amount"], 0.0),
      OptionalText(row["notes"]))
  }

  /**
   * The record built from an error-free row. Optional columns absent from
   * the file raise KeyError, and a non-numeric tax percent or discount
   * raises ValueError, aborting the file.
   */
  function ParseInvoiceRow(row: Row, today: string): Result<InvoiceData, string> {
    match InvoiceParseError(row)
    case Some(e) => Failure(e)
    case None => Success(BuildInvoice(row, today))
  }

  /**
   * A record carries the row's validated values: its number, customer and
   * TRN as stripped, non-blank text, fifteen characters of TRN, a positive
   * quantity, a non-negative price when there is one, and a known type.
   */
  lemma ParsedInvoiceValues(row: Row, today: string)
    requires InvoiceRowAcceptable(row)
    requires InvoiceParseError(row).None?
    ensures BuildInvoice(row, today).invoiceNumber != "" && BuildInvoice(row, today).customerName != ""
    ensures |BuildInvoice(row, today).customerTrn| == 15
    ensures BuildInvoice(row, today).quantity > 0.0
    ensures KnownInvoiceType(BuildInvoice(row, today).invoiceType)
    ensures BuildInvoice(row, today).unitPrice.Some? ==> BuildInvoice(row, today).unitPrice.value >= 0.0
  {
    var d := BuildInvoice(row, today);
    assert d.invoiceNumber == Strip(At(row, "invoice_number").value.text);
    assert d.customerName == Strip(At(row, "customer_name").value.text);
    assert d.customerTrn == Strip(At(row, "customer_trn").value.text);
  }

  /** Empty cells take their defaults: today's date, 5 % tax, no discount, no notes. */
  lemma ParsedInvoiceDefaults(row: Row, today: string)
    requires InvoiceParseError(row).None?
    ensures At(row, "issue_date").None? ==> BuildInvoice(row, today).issueDate == today
    ensures At(row, "tax_percent").None? ==> BuildInvoice(row, today).taxPercent == 5.0
    ensures At(row, "discount_amount").None? ==> BuildInvoice(row, today).discountAmount == 0.0
    ensures At(row, "notes").None? <==> BuildInvoice(row, today).notes.None?
  {
  }

  /** The row parser of one day's upload. */
  function InvoiceParser(today: string): Row -> Result<InvoiceData, string> {
    row => ParseInvoiceRow(row, today)
  }

  /** `validate_invoice_file` */
  method ValidateInvoiceFile(filename: string, read: Result<Table, string>, today: string) returns (r: FileResult<InvoiceData>)
    ensures r == FileOutcome(filename, read, InvoiceRequiredColumns, InvoiceRowErrors, InvoiceParser(today))
  {
    r := ValidateFile(filename, read, InvoiceRequiredColumns, InvoiceRowErrors, InvoiceParser(today));
  }

  // ---------------------------------------------------------------- vendors

  const VendorRequiredColumns := ["vendor_name", "vendor_trn", "vendor_email"]

  datatype VendorData = VendorData(vendorName: string, vendorTrn: string, vendorEmail: string,
                                   vendorPhone: Option<string>, vendorAddress: Option<string>,
                                   peppolId: Option<string>, paymentTerms: string, isActive: bool)

  /** A present e-mail whose text has an '@' (checked before stripping). */
  predicate EmailShaped(c: Option<Cell>) {
    c.Some? && ContainsChar(c.value.text, '@')
  }

  predicate VendorRowAcceptable(row: Row) {
    !Blank(At(row, "vendor_name")) && TrnShaped(At(row, "vendor_trn")) && EmailShaped(At(row, "vendor_email"))
  }

  function VendorRowProblems(row: Row): seq<Problem> {
    Flag(Blank(At(row, "vendor_name")), VendorNameRequired)
    + Flag(!TrnShaped(At(row, "vendor_trn")), TrnRequired)
    + Flag(!EmailShaped(At(row, "vendor_email")), EmailRequired)
  }

  lemma VendorRowProblemsSpec(row: Row)
    ensures VendorRowProblems(row) == [] <==> VendorRowAcceptable(row)
    ensures |VendorRowProblems(row)| <= 3
  {
  }

  function VendorRowErrors(row: Row, n: nat): seq<string> {
    Messages(VendorRowProblems(row), n)
  }

  /** The KeyError reading an error-free vendor row raises, if any. */
  function VendorParseError(row: Row): Option<string> {
    if "vendor_phone" !in row then Some(KeyErrorText("vendor_phone"))
    else if "vendor_address" !in row then Some(KeyErrorText("vendor_address"))
    else if "peppol_id" !in row then Some(KeyErrorText("peppol_id"))
    else if "payment_terms" !in row then Some(KeyErrorText("payment_terms"))
    else if "is_active" !in row then Some(KeyErrorText("is_active"))
    else None
  }

  /** The vendor record, with payment terms "Net 30" and active by default. */
  function BuildVendor(row: Row): VendorData
    requires VendorParseError(row).None?
  {
    var active := row["is_active"];
    VendorData(
      StrippedText(At(row, "vendor_name")),
      StrippedText(At(row, "vendor_trn")),
      StrippedText(At(row, "vendor_email")),
      OptionalText(row["vendor_phone"]),
      OptionalText(row["vendor_address"]),
      OptionalText(row["peppol_id"]),
      GetOr(OptionalText(row["payment_terms"]), "Net 30"),
      if active.None? then true else active.value.truthy)
  }

  function ParseVendorRow(row: Row): Result<VendorData, string> {
    match VendorParseError(row)
    case Some(e) => Failure(e)
    case None => Success(BuildVendor(row))
  }

  /** A vendor record has a non-blank name, a fifteen-character TRN and the documented defaults. */
  lemma ParsedVendorSpec(row: Row)
    requires VendorRowAcceptable(row)
    requires VendorParseError(row).None?
    ensures BuildVendor(row).vendorName != "" && |BuildVendor(row).vendorTrn| == 15
    ensures At(row, "payment_terms").None? ==> BuildVendor(row).paymentTerms == "Net 30"
    ensures At(row, "is_active").None? ==> BuildVendor(row).isActive
  {
    var v := BuildVendor(row);
    var name, trn := At(row, "vendor_name"), At(row, "vendor_trn");
    assert v.vendorName == StrippedText(name) && v.vendorTrn == StrippedText(trn);
    assert name.Some? && Strip(name.value.text) != "";
    assert trn.Some? && |Strip(trn.value.text)| == 15;
    assert At(row, "payment_terms") == row["payment_terms"] && At(row, "is_active") == row["is_active"];
  }

  /** `validate_vendor_file` */
  method ValidateVendorFile(filename: string, read: Result<Table, string>) returns (r: FileResult<VendorData>)
    ensures r == FileOutcome(filename, read, VendorRequiredColumns, VendorRowErrors, ParseVendorRow)
  {
    r := ValidateFile(filename, read, VendorRequiredColumns, VendorRowErrors, ParseVendorRow);
  }
}
