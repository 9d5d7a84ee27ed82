/**
 * The string-template rendering of an OASIS UBL 2.1 Invoice carrying the
 * PEPPOL BIS Billing 3.0 / EN 16931 customization and profile identifiers,
 * for the UAE PINT-AE profile; the SHA-256 fingerprint of the rendered
 * document; and the mandatory-field validator that accompanies it.
 *
 * The input is the dictionary the renderer reads. A key read with `.get`
 * is an `Option` (None: absent); a key read by subscript that is absent
 * makes the renderer fail with that key's name (Python's `KeyError`), in
 * the order the template evaluates its fields. Amounts arrive as floats with
 * two decimals and are held here as whole cents.
 */
module UblTemplate {
  import opened Common

  // ---------------------------------------------------------------- input

  /** A date field: an ISO string, a date/datetime object, or anything else. */
  datatype DateValue = DateText(text: string) | CalendarDate(date: Date) | OtherValue(repr: string)

  /** Python truthiness of an optional date field; non-string values are truthy. */
  predicate TruthyDate(o: Option<DateValue>) {
    o.Some? && (o.value.DateText? ==> o.value.text != "")
  }

  datatype PintInvoice = PintInvoice(
    invoiceNumber: Option<string>,
    issueDate: Option<DateValue>,
    dueDate: Option<DateValue>,
    invoiceType: Option<string>,
    invoiceNotes: Option<string>,
    currencyCode: Option<string>,
    referenceNumber: Option<string>,
    precedingInvoiceId: Option<string>,
    precedingInvoiceNumber: Option<string>,
    creditNoteReason: Option<string>,
    supplierPeppolId: Option<string>,
    supplierAddress: Option<string>,
    supplierCity: Option<string>,
    supplierCountry: Option<string>,
    supplierTrn: Option<string>,
    supplierName: Option<string>,
    customerPeppolId: Option<string>,
    customerAddress: Option<string>,
    customerCity: Option<string>,
    customerCountry: Option<string>,
    customerTrn: Option<string>,
    customerName: Option<string>,
    paymentTerms: Option<string>,
    paymentDueDays: Option<int>,
    subtotalAmount: Option<int>,
    totalAmount: Option<int>,
    amountDue: Option<int>,
    totalAmountAed: Option<int>)

  /** An invoice dictionary with no keys at all. */
  const EmptyInvoice := PintInvoice(None, None, None, None, None, None, None, None, None, None,
    None, None, None, None, None, None, None, None, None, None, None, None, None, None, None, None, None, None)

  datatype TaxBreakdown = TaxBreakdown(
    taxCategory: Option<string>,
    taxableAmount: Option<int>,
    taxAmount: Option<int>,
    taxPercent: Option<int>)

  datatype PintLine = PintLine(
    lineNumber: Option<int>,
    unitCode: Option<string>,
    quantity: Option<int>,
    lineExtensionAmount: Option<int>,
    itemName: Option<string>,
    itemDescription: Option<string>,
    itemCode: Option<string>,
    taxCategory: Option<string>,
    taxPercent: Option<int>,
    unitPrice: Option<int>)

  /** The top-level dictionary; absent line and breakdown lists are empty lists. */
  datatype InvoiceData = InvoiceData(invoice: Option<PintInvoice>, lineItems: seq<PintLine>, taxBreakdowns: seq<TaxBreakdown>)

  // ---------------------------------------------------------------- escaping

  /** `s.replace(c, rep)` for a one-character pattern. */
  function ReplaceChar(s: string, c: char, rep: string): string {
    if s == [] then [] else (if s[0] == c then rep else [s[0]]) + ReplaceChar(s[1..], c, rep)
  }

  lemma {:induction false} ReplaceCharConcat(a: string, b: string, c: char, rep: string)
    ensures ReplaceChar(a + b, c, rep) == ReplaceChar(a, c, rep) + ReplaceChar(b, c, rep)
  {
    if a == [] {
      assert a + b == b;
    } else {
      assert (a + b)[1..] == a[1..] + b;
      ReplaceCharConcat(a[1..], b, c, rep);
    }
  }

  /** The five replacements in the order the escaper applies them, ampersand first. */
  function ReplaceEntities(s: string): string {
    ReplaceChar(ReplaceChar(ReplaceChar(ReplaceChar(ReplaceChar(s, '&', "&amp;"), '<', "&lt;"), '>', "&gt;"), '"', "&quot;"), '\'', "&apos;")
  }

  /**
   * Escapes the five predefined entities of section 4.6 of XML 1.0; an empty
   * text gives the empty string. The result has no raw markup character.
   */
  function XmlEscape(text: string): string {
    if text == "" then "" else ReplaceEntities(text)
  }

  /** Escaping equals the per-character reference, so no raw markup character survives. */
  lemma XmlEscapeSpec(text: string)
    ensures XmlEscape(text) == EscapeEach(text)
    ensures forall i :: 0 <= i < |XmlEscape(text)| ==>
      XmlEscape(text)[i] != '<' && XmlEscape(text)[i] != '>' && XmlEscape(text)[i] != '"' && XmlEscape(text)[i] != '\''
  {
    ReplaceEntitiesIsPerChar(text);
  }

  /** The entity for one character, or the character itself. */
  function EscapeChar(c: char): string {
    if c == '&' then "&amp;"
    else if c == '<' then "&lt;"
    else if c == '>' then "&gt;"
    else if c == '"' then "&quot;"
    else if c == '\'' then "&apos;"
    else [c]
  }

  /** Character-by-character escaping: the reference definition. */
  function EscapeEach(s: string): (r: string)
    ensures forall i :: 0 <= i < |r| ==> r[i] != '<' && r[i] != '>' && r[i] != '"' && r[i] != '\''
  {
    if s == [] then [] else EscapeChar(s[0]) + EscapeEach(s[1..])
  }

  /**
   * Applying the replacements one after another equals escaping character by
   * character: because the ampersand goes first, no entity is escaped twice.
   */
  lemma {:induction false} ReplaceEntitiesIsPerChar(s: string)
    ensures ReplaceEntities(s) == EscapeEach(s)
  {
    if s != [] {
      var h, t := [s[0]], s[1..];
      assert s == h + t;
      var r1a, r1b := ReplaceChar(h, '&', "&amp;"), ReplaceChar(t, '&', "&amp;");
      ReplaceCharConcat(h, t, '&', "&amp;");
      var r2a, r2b := ReplaceChar(r1a, '<', "&lt;"), ReplaceChar(r1b, '<', "&lt;");
      ReplaceCharConcat(r1a, r1b, '<', "&lt;");
      var r3a, r3b := ReplaceChar(r2a, '>', "&gt;"), ReplaceChar(r2b, '>', "&gt;");
      ReplaceCharConcat(r2a, r2b, '>', "&gt;");
      var r4a, r4b := ReplaceChar(r3a, '"', "&quot;"), ReplaceChar(r3b, '"', "&quot;");
      ReplaceCharConcat(r3a, r3b, '"', "&quot;");
      ReplaceCharConcat(r4a, r4b, '\'', "&apos;");
      EntitiesOfOneChar(s[0]);
      ReplaceEntitiesIsPerChar(t);
    }
  }

  lemma ReplaceOne(c: char, x: char, rep: string)
    ensures ReplaceChar([c], x, rep) == if c == x then rep else [c]
  {
    assert [c][1..] == [];
  }

  predicate Lacks(s: string, c: char) {
    forall i :: 0 <= i < |s| ==> s[i] != c
  }

  lemma {:induction false} NoReplaceWithout(s: string, c: char, rep: string)
    requires Lacks(s, c)
    ensures ReplaceChar(s, c, rep) == s
  {
    if s != [] {
      assert s == [s[0]] + s[1..];
      NoReplaceWithout(s[1..], c, rep);
    }
  }

  /** The five replacements applied to one character give its entity. */
  lemma EntitiesOfOneChar(c: char)
    ensures ReplaceEntities([c]) == EscapeChar(c)
  {
    if c == '&' {
      EntityOfAmpersand();
    } else if c == '<' {
      EntityOfLess();
    } else if c == '>' {
      EntityOfGreater();
    } else if c == '"' {
      EntityOfQuote();
    } else if c == '\'' {
      EntityOfApostrophe();
    } else {
      ReplaceOne(c, '&', "&amp;");
      ReplaceOne(c, '<', "&lt;");
      ReplaceOne(c, '>', "&gt;");
      ReplaceOne(c, '"', "&quot;");
      ReplaceOne(c, '\'', "&apos;");
    }
  }

  lemma EntityOfAmpersand()
    ensures ReplaceEntities("&") == "&amp;"
  {
    var e := "&amp;";
    ReplaceOne('&', '&', e);
    AmpersandEntityKept(e);
  }

  lemma AmpersandEntityKept(e: string)
    requires e == "&amp;"
    ensures ReplaceChar(ReplaceChar(ReplaceChar(ReplaceChar(e, '<', "&lt;"), '>', "&gt;"), '"', "&quot;"), '\'', "&apos;") == e
  {
    assert |e| == 5 && e[0] == '&' && e[1] == 'a' && e[2] == 'm' && e[3] == 'p' && e[4] == ';';
    NoReplaceWithout(e, '<', "&lt;");
    NoReplaceWithout(e, '>', "&gt;");
    NoReplaceWithout(e, '"', "&quot;");
    NoReplaceWithout(e, '\'', "&apos;");
  }

  lemma EntityOfLess()
    ensures ReplaceEntities("<") == "&lt;"
  {
    var e := "&lt;";
    ReplaceOne('<', '&', "&amp;");
    ReplaceOne('<', '<', e);
    assert |e| == 4 && e[0] == '&' && e[1] == 'l' && e[2] == 't' && e[3] == ';';
    NoReplaceWithout(e, '>', "&gt;");
    NoReplaceWithout(e, '"', "&quot;");
    NoReplaceWithout(e, '\'', "&apos;");
  }

  lemma EntityOfGreater()
    ensures ReplaceEntities(">") == "&gt;"
  {
    var e := "&gt;";
    ReplaceOne('>', '&', "&amp;");
    ReplaceOne('>', '<', "&lt;");
    ReplaceOne('>', '>', e);
    assert |e| == 4 && e[0] == '&' && e[1] == 'g' && e[2] == 't' && e[3] == ';';
    NoReplaceWithout(e, '"', "&quot;");
    NoReplaceWithout(e, '\'', "&apos;");
  }

  lemma EntityOfQuote()
    ensures ReplaceEntities("\"") == "&quot;"
  {
    var e := "&quot;";
    ReplaceOne('"', '&', "&amp;");
    ReplaceOne('"', '<', "&lt;");
    ReplaceOne('"', '>', "&gt;");
    ReplaceOne('"', '"', e);
    assert |e| == 6 && e[0] == '&' && e[1] == 'q' && e[2] == 'u' && e[3] == 'o' && e[4] == 't' && e[5] == ';';
    NoReplaceWithout(e, '\'', "&apos;");
  }

  lemma EntityOfApostrophe()
    ensures ReplaceEntities("'") == "&apos;"
  {
    ReplaceOne('\'', '&', "&amp;");
    ReplaceOne('\'', '<', "&lt;");
    ReplaceOne('\'', '>', "&gt;");
    ReplaceOne('\'', '"', "&quot;");
    ReplaceOne('\'', '\'', "&apos;");
  }

  /** Decodes the five predefined entities; other text passes through. */
  function Unescape(s: string): string {
    if s == [] then []
    else if StartsWith(s, "&amp;") then "&" + Unescape(s[5..])
    else if StartsWith(s, "&lt;") then "<" + Unescape(s[4..])
    else if StartsWith(s, "&gt;") then ">" + Unescape(s[4..])
    else if StartsWith(s, "&quot;") then "\"" + Unescape(s[6..])
    else if StartsWith(s, "&apos;") then "'" + Unescape(s[6..])
    else [s[0]] + Unescape(s[1..])
  }

  /** Decoding the entities gives back exactly the text that was escaped. */
  lemma {:induction false} XmlEscapeRoundTrip(s: string)
    ensures Unescape(XmlEscape(s)) == s
  {
    XmlEscapeSpec(s);
    EscapeEachRoundTrip(s);
  }

  lemma {:induction false} EscapeEachRoundTrip(s: string)
    ensures Unescape(EscapeEach(s)) == s
  {
    if s != [] {
      UnescapeEscapeChar(s[0], EscapeEach(s[1..]));
      EscapeEachRoundTrip(s[1..]);
      assert s == [s[0]] + s[1..];
    }
  }

  /** Decoding an escaped character followed by any text reads that character back. */
  lemma UnescapeEscapeChar(c: char, rest: string)
    ensures Unescape(EscapeChar(c) + rest) == [c] + Unescape(rest)
  {
    if c == '&' {
      UnescapeAmp(rest);
    } else if c == '<' {
      UnescapeLt(rest);
    } else if c == '>' {
      UnescapeGt(rest);
    } else if c == '"' {
      UnescapeQuot(rest);
    } else if c == '\'' {
      UnescapeApos(rest);
    } else {
      assert EscapeChar(c) == [c];
      UnescapePlain(c, rest);
    }
  }

  /** A character that opens no entity is read back as itself. */
  lemma UnescapePlain(c: char, rest: string)
    requires c != '&'
    ensures Unescape([c] + rest) == [c] + Unescape(rest)
  {
    var s := [c] + rest;
    assert s[0] == c && s[1..] == rest;
    assert !StartsWith(s, "&amp;") && !StartsWith(s, "&lt;") && !StartsWith(s, "&gt;");
    assert !StartsWith(s, "&quot;") && !StartsWith(s, "&apos;");
  }

  lemma UnescapeAmp(rest: string)
    ensures Unescape("&amp;" + rest) == "&" + Unescape(rest)
  {
    var s := "&amp;" + rest;
    assert s[..5] == "&amp;" && s[5..] == rest;
  }

  lemma UnescapeLt(rest: string)
    ensures Unescape("&lt;" + rest) == "<" + Unescape(rest)
  {
    var s := "&lt;" + rest;
    assert s[1] == 'l';
    assert s[..4] == "&lt;" && s[4..] == rest;
  }

  lemma UnescapeGt(rest: string)
    ensures Unescape("&gt;" + rest) == ">" + Unescape(rest)
  {
    var s := "&gt;" + rest;
    assert s[1] == 'g';
    assert s[..4] == "&gt;" && s[4..] == rest;
  }

  lemma UnescapeQuot(rest: string)
    ensures Unescape("&quot;" + rest) == "\"" + Unescape(rest)
  {
    var s := "&quot;" + rest;
    assert s[1] == 'q';
    assert s[..6] == "&quot;" && s[6..] == rest;
  }

  lemma UnescapeApos(rest: string)
    ensures Unescape("&apos;" + rest) == "'" + Unescape(rest)
  {
    var s := "&apos;" + rest;
    assert s[1] == 'a' && s[2] == 'p';
    assert s[..6] == "&apos;" && s[6..] == rest;
  }

  // ---------------------------------------------------------------- dates and amounts

  /**
   * A string keeps its part before the first 'T' (the date of an ISO 8601
   * date-time); a date renders as YYYY-MM-DD; anything else as `str()` of it.
   */
  function FormatDate(v: DateValue): string {
    match v
    case DateText(s) =>
      var k := IndexOf(s, 'T');
      if k == |s| then s else s[..k]
    case CalendarDate(d) => FormatYmd(d)
    case OtherValue(t) => t
  }

  /**
   * A date-time string keeps exactly its part before the first 'T'; a
   * calendar date renders as text that parses back to the same date.
   */
  lemma FormatDateSpec(v: DateValue)
    ensures v.DateText? ==> StartsWith(v.text, FormatDate(v)) && !ContainsChar(FormatDate(v), 'T')
    ensures v.DateText? && ContainsChar(v.text, 'T') ==> v.text[|FormatDate(v)|] == 'T'
    ensures v.DateText? && !ContainsChar(v.text, 'T') ==> FormatDate(v) == v.text
    ensures v.CalendarDate? ==> ParseYmd(FormatDate(v)) == Some(v.date)
  {
    if v.CalendarDate? {
      FormatYmdRoundTrip(v.date);
    }
  }

  // ---------------------------------------------------------------- optional elements

  /** Wraps a value in a tag when the field is truthy, else renders nothing. */
  function OptionalElement(open: string, close: string, field: Option<string>, render: string -> string): string {
    if Truthy(field) then open + render(field.value) + close else ""
  }

  /** An element with a non-empty opening tag is omitted exactly when its field is falsy. */
  lemma OptionalElementSpec(open: string, close: string, field: Option<string>, render: string -> string)
    requires open != ""
    ensures OptionalElement(open, close, field, render) == "" <==> !Truthy(field)
  {
  }

  function Escaped(s: string): string { XmlEscape(s) }

  function Raw(s: string): string { s }

  // ---------------------------------------------------------------- template text

  /** The template's indentation levels, four spaces each. */
  const Pad4 := "    "
  const Pad8 := "        "
  const Pad12 := "            "
  const Pad16 := "                "
  const Pad20 := "                    "

  /** The body of an XML comment line. */
  function Comment(text: string): string {
    "<!-- " + text + " -->"
  }

  /** A basic-component element around its text. */
  function Cbc(tag: string, content: string): string {
    "<cbc:" + tag + ">" + content + "</cbc:" + tag + ">"
  }

  /** A monetary element: the currency as an attribute, the amount with two decimals. */
  function AmountElement(tag: string, currency: string, cents: int): string {
    "<cbc:" + tag + " currencyID=\"" + currency + "\">" + FormatCents(cents) + "</cbc:" + tag + ">"
  }

  /** The VAT tax scheme block, at the indentation every use of it has. */
  const VatScheme := Pad16 + "<cac:TaxScheme>\n" + Pad20 + Cbc("ID", "VAT") + "\n" + Pad16 + "</cac:TaxScheme>\n"

  function DueDateElement(inv: PintInvoice): string {
    if TruthyDate(inv.dueDate) then Cbc("DueDate", FormatDate(inv.dueDate.value)) else ""
  }

  /** A PEPPOL endpoint in the UAE scheme 0190. */
  function EndpointId(peppolId: string): string {
    "<cbc:EndpointID schemeID=\"0190\">" + peppolId + "</cbc:EndpointID>"
  }

  /** A party's VAT registration block (the customer's; the supplier's has the same text). */
  function PartyTaxScheme(trn: string): string {
    "<cac:PartyTaxScheme>\n"
    + Pad16 + Cbc("CompanyID", trn) + "\n"
    + VatScheme
    + Pad12 + "</cac:PartyTaxScheme>"
  }

  /**
   * The billing reference of a credit note: its ID is the escaped preceding
   * invoice number (empty when absent); a reason code follows only when a
   * reason is given.
   */
  function PrecedingInvoiceReference(inv: PintInvoice): string {
    BillingReference(inv.precedingInvoiceNumber) + ReasonCode(inv.creditNoteReason)
  }

  function ReasonCode(reason: Option<string>): string {
    OptionalElement("\n" + Pad4 + "<cbc:CreditNoteReasonCode>", "</cbc:CreditNoteReasonCode>", reason, Escaped)
  }

  /** The reference carries a reason code exactly when the credit note gives a reason. */
  lemma ReasonCodeOnlyWithReason(inv: PintInvoice)
    ensures PrecedingInvoiceReference(inv) == BillingReference(inv.precedingInvoiceNumber) <==> !Truthy(inv.creditNoteReason)
    ensures StartsWith(PrecedingInvoiceReference(inv), BillingReference(inv.precedingInvoiceNumber))
  {
    PrefixConcat(BillingReference(inv.precedingInvoiceNumber), ReasonCode(inv.creditNoteReason));
  }

  function BillingReference(precedingInvoiceNumber: Option<string>): string {
    "<cac:BillingReference>\n"
    + Pad8 + "<cac:InvoiceDocumentReference>\n"
    + Pad12 + Cbc("ID", XmlEscape(GetOr(precedingInvoiceNumber, ""))) + "\n"
    + Pad8 + "</cac:InvoiceDocumentReference>\n"
    + Pad4 + "</cac:BillingReference>"
  }

  /**
   * The payment-terms note: the given terms when they are non-empty, else the
   * sentence built from the due days.
   */
  function PaymentTermsNote(inv: PintInvoice): string {
    var terms := GetOr(inv.paymentTerms, "");
    if terms == "" && TruthyNum(inv.paymentDueDays) then
      "Payment due within " + IntToString(inv.paymentDueDays.value) + " days"
    else terms
  }

  function PaymentTermsXml(inv: PintInvoice): string {
    "<cac:PaymentTerms>\n"
    + Pad8 + Cbc("Note", XmlEscape(PaymentTermsNote(inv))) + "\n"
    + Pad4 + "</cac:PaymentTerms>"
  }

  function PaymentTermsElement(inv: PintInvoice): string {
    if Truthy(inv.paymentTerms) || TruthyNum(inv.paymentDueDays) then PaymentTermsXml(inv) else ""
  }

  /**
   * The payment-terms block appears exactly when terms or due days are
   * given; given terms win over the sentence built from the due days.
   */
  lemma PaymentTermsSpec(inv: PintInvoice)
    ensures PaymentTermsElement(inv) == "" <==> !(Truthy(inv.paymentTerms) || TruthyNum(inv.paymentDueDays))
    ensures Truthy(inv.paymentTerms) ==> PaymentTermsNote(inv) == inv.paymentTerms.value
    ensures !Truthy(inv.paymentTerms) && TruthyNum(inv.paymentDueDays) ==>
      PaymentTermsNote(inv) == "Payment due within " + IntToString(inv.paymentDueDays.value) + " days"
  {
  }

  // ---------------------------------------------------------------- tax total

  /** Sum of the breakdowns' tax amounts, an absent amount counting as 0. */
  function SumTax(bds: seq<TaxBreakdown>): int {
    if bds == [] then 0 else SumTax(bds[..|bds| - 1]) + GetOrZero(bds[|bds| - 1].taxAmount)
  }

  function GetOrZero(o: Option<int>): int {
    if o.Some? then o.value else 0
  }

  /** The total tax is additive over the breakdown list. */
  lemma {:induction false} SumTaxConcat(a: seq<TaxBreakdown>, b: seq<TaxBreakdown>)
    ensures SumTax(a + b) == SumTax(a) + SumTax(b)
    decreases |b|
  {
    if b == [] {
      assert a + b == a;
    } else {
      assert (a + b)[..|a + b| - 1] == a + b[..|b| - 1];
      assert (a + b)[|a + b| - 1] == b[|b| - 1];
      SumTaxConcat(a, b[..|b| - 1]);
    }
  }

  /** A breakdown carries the three amounts the subtotal reads by subscript. */
  predicate BreakdownComplete(tb: TaxBreakdown) {
    tb.taxableAmount.Some? && tb.taxAmount.Some? && tb.taxPercent.Some?
  }

  /** The first of the three amounts a breakdown lacks, in reading order. */
  function MissingBreakdownKey(tb: TaxBreakdown): string {
    if tb.taxableAmount.None? then "taxable_amount"
    else if tb.taxAmount.None? then "tax_amount"
    else "tax_percent"
  }

  /** One TaxSubtotal; the category defaults to "S". Fails on the first key it lacks. */
  function TaxSubtotalXml(tb: TaxBreakdown, currency: string): (r: Result<string, string>)
    ensures r.Failure? <==> !BreakdownComplete(tb)
    ensures r.Failure? ==> r.error == MissingBreakdownKey(tb)
  {
    if tb.taxableAmount.None? then Failure("taxable_amount")
    else if tb.taxAmount.None? then Failure("tax_amount")
    else if tb.taxPercent.None? then Failure("tax_percent")
    else Success(
      "\n" + Pad8 + "<cac:TaxSubtotal>\n"
      + Pad12 + AmountElement("TaxableAmount", currency, tb.taxableAmount.value) + "\n"
      + Pad12 + AmountElement("TaxAmount", currency, tb.taxAmount.value) + "\n"
      + Pad12 + "<cac:TaxCategory>\n"
      + Pad16 + Cbc("ID", GetOr(tb.taxCategory, "S")) + "\n"
      + Pad16 + Cbc("Percent", FormatCents(tb.taxPercent.value)) + "\n"
      + VatScheme
      + Pad12 + "</cac:TaxCategory>\n"
      + Pad8 + "</cac:TaxSubtotal>")
  }

  /** The subtotals of a list of breakdowns, in list order; the first failure wins. */
  function TaxSubtotalsXml(bds: seq<TaxBreakdown>, currency: string): Result<string, string> {
    RenderAll(bds, currency, TaxSubtotalXml)
  }

  function TaxTotalOpen(bds: seq<TaxBreakdown>, currency: string): string {
    "<cac:TaxTotal>\n" + Pad8 + AmountElement("TaxAmount", currency, SumTax(bds))
  }

  const TaxTotalClose := "\n" + Pad4 + "</cac:TaxTotal>"

  /**
   * The TaxTotal block: the summed tax amount, then one subtotal per
   * breakdown. It fails exactly when some breakdown lacks an amount, with the
   * missing key of the first such breakdown.
   */
  function TaxTotalXml(bds: seq<TaxBreakdown>, currency: string): (r: Result<string, string>)
    ensures r.Success? <==> forall i :: 0 <= i < |bds| ==> BreakdownComplete(bds[i])
  {
    RenderAllSucceeds(bds, currency, TaxSubtotalXml);
    match TaxSubtotalsXml(bds, currency)
    case Failure(k) => Failure(k)
    case Success(body) => Success(TaxTotalOpen(bds, currency) + body + TaxTotalClose)
  }

  /** A failed TaxTotal names the missing key of the first incomplete breakdown. */
  lemma TaxTotalFirstFailure(bds: seq<TaxBreakdown>, currency: string)
    requires TaxTotalXml(bds, currency).Failure?
    ensures exists i :: (0 <= i < |bds| && !BreakdownComplete(bds[i])
      && TaxTotalXml(bds, currency).error == MissingBreakdownKey(bds[i])
      && forall j :: 0 <= j < i ==> BreakdownComplete(bds[j]))
  {
    RenderAllSucceeds(bds, currency, TaxSubtotalXml);
  }

  /** A rendered TaxTotal opens with the summed tax amount and closes the block. */
  lemma TaxTotalXmlEnds(bds: seq<TaxBreakdown>, currency: string)
    requires TaxTotalXml(bds, currency).Success?
    ensures StartsWith(TaxTotalXml(bds, currency).value, TaxTotalOpen(bds, currency))
    ensures EndsWith(TaxTotalXml(bds, currency).value, TaxTotalClose)
  {
    ConcatEnds(TaxTotalOpen(bds, currency), TaxSubtotalsXml(bds, currency).value, TaxTotalClose);
  }

  /**
   * Builds the TaxTotal block: the summed tax, then one subtotal appended per
   * breakdown, then the closing tag.
   */
  method GenerateTaxTotal(bds: seq<TaxBreakdown>, currency: string) returns (r: Result<string, string>)
    ensures r == TaxTotalXml(bds, currency)
  {
    var xml := TaxTotalOpen(bds, currency);
    r := AppendRendered(xml, bds, currency, TaxSubtotalXml);
    if r.Success? {
      r := Success(r.value + TaxTotalClose);
    }
  }

  /** Subtotals follow the breakdown list: a concatenated list renders part by part. */
  lemma TaxSubtotalsConcat(a: seq<TaxBreakdown>, b: seq<TaxBreakdown>, currency: string)
    requires TaxSubtotalsXml(a, currency).Success? && TaxSubtotalsXml(b, currency).Success?
    ensures TaxSubtotalsXml(a + b, currency) ==
      Success(TaxSubtotalsXml(a, currency).value + TaxSubtotalsXml(b, currency).value)
  {
    RenderAllConcat(a, b, currency, TaxSubtotalXml);
  }

  // ---------------------------------------------------------------- invoice lines

  /** A line carries the five fields the line template reads by subscript. */
  predicate LineComplete(l: PintLine) {
    l.lineNumber.Some? && l.quantity.Some? && l.lineExtensionAmount.Some? && l.itemName.Some? && l.unitPrice.Some?
  }

  /** The first field a line lacks, in reading order. */
  function MissingLineKey(l: PintLine): string {
    if l.lineNumber.None? then "line_number"
    else if l.quantity.None? then "quantity"
    else if l.lineExtensionAmount.None? then "line_extension_amount"
    else if l.itemName.None? then "item_name"
    else "unit_price"
  }

  function LineHead(lineNumber: int): string {
    Pad4 + "<cac:InvoiceLine>\n" + Pad8 + Cbc("ID", IntToString(lineNumber))
  }

  /**
   * One InvoiceLine, opened by its line number; the unit code defaults to
   * C62, the tax category to S and the percent to 5.00. Fails on the first
   * key it lacks.
   */
  function InvoiceLineXml(l: PintLine, currency: string): (r: Result<string, string>)
    ensures r.Failure? <==> !LineComplete(l)
    ensures r.Failure? ==> r.error == MissingLineKey(l)
  {
    if l.lineNumber.None? then Failure("line_number")
    else if l.quantity.None? then Failure("quantity")
    else if l.lineExtensionAmount.None? then Failure("line_extension_amount")
    else if l.itemName.None? then Failure("item_name")
    else if l.unitPrice.None? then Failure("unit_price")
    else
      Success(LineHead(l.lineNumber.value) + LineBody(l, currency))
  }

  function LineBody(l: PintLine, currency: string): string
    requires l.quantity.Some? && l.lineExtensionAmount.Some? && l.itemName.Some? && l.unitPrice.Some?
  {
    "\n" + Pad8 + "<cbc:InvoicedQuantity unitCode=\"" + GetOr(l.unitCode, "C62") + "\">" + FormatCents(l.quantity.value) + "</cbc:InvoicedQuantity>\n"
    + Pad8 + AmountElement("LineExtensionAmount", currency, l.lineExtensionAmount.value) + "\n"
    + Pad8 + "\n"
    + Pad8 + "<cac:Item>\n"
    + Pad12 + Cbc("Name", XmlEscape(l.itemName.value)) + "\n"
    + Pad12 + OptionalElement("<cbc:Description>", "</cbc:Description>", l.itemDescription, Escaped) + "\n"
    + Pad12 + OptionalElement("<cac:SellersItemIdentification><cbc:ID>", "</cbc:ID></cac:SellersItemIdentification>", l.itemCode, Escaped) + "\n"
    + Pad12 + "\n"
    + ClassifiedTaxCategory(GetOr(l.taxCategory, "S"), if l.taxPercent.Some? then l.taxPercent.value else 500)
    + Pad8 + "</cac:Item>\n"
    + Pad8 + "\n"
    + Pad8 + "<cac:Price>\n"
    + Pad12 + AmountElement("PriceAmount", currency, l.unitPrice.value) + "\n"
    + Pad8 + "</cac:Price>\n"
    + Pad4 + "</cac:InvoiceLine>\n"
  }

  /** The line's tax category block; the line supplies S and 5.00 percent by default. */
  function ClassifiedTaxCategory(category: string, percent: int): string {
    Pad12 + "<cac:ClassifiedTaxCategory>\n"
    + Pad16 + Cbc("ID", category) + "\n"
    + Pad16 + Cbc("Percent", FormatCents(percent)) + "\n"
    + VatScheme
    + Pad12 + "</cac:ClassifiedTaxCategory>\n"
  }

  /**
   * The lines in list order, with no sorting. The rendering fails exactly
   * when some line lacks a field, with the missing key of the first such line.
   */
  function InvoiceLinesXml(lines: seq<PintLine>, currency: string): (r: Result<string, string>)
    ensures r.Success? <==> forall i :: 0 <= i < |lines| ==> LineComplete(lines[i])
  {
    RenderAllSucceeds(lines, currency, InvoiceLineXml);
    RenderAll(lines, currency, InvoiceLineXml)
  }

  /** A failed rendering names the missing key of the first incomplete line. */
  lemma InvoiceLinesFirstFailure(lines: seq<PintLine>, currency: string)
    requires InvoiceLinesXml(lines, currency).Failure?
    ensures exists i :: (0 <= i < |lines| && !LineComplete(lines[i])
      && InvoiceLinesXml(lines, currency).error == MissingLineKey(lines[i])
      && forall j :: 0 <= j < i ==> LineComplete(lines[j]))
  {
    RenderAllSucceeds(lines, currency, InvoiceLineXml);
  }

  /** Appends one InvoiceLine per list entry to an empty text. */
  method GenerateInvoiceLines(lines: seq<PintLine>, currency: string) returns (r: Result<string, string>)
    ensures r == InvoiceLinesXml(lines, currency)
  {
    r := AppendRendered("", lines, currency, InvoiceLineXml);
    if r.Success? {
      assert "" + RenderAll(lines, currency, InvoiceLineXml).value == RenderAll(lines, currency, InvoiceLineXml).value;
    }
  }

  /**
   * Lines are emitted in list order: rendering a concatenation of lists
   * renders the first list, then the second.
   */
  lemma InvoiceLinesConcat(a: seq<PintLine>, b: seq<PintLine>, currency: string)
    requires InvoiceLinesXml(a, currency).Success? && InvoiceLinesXml(b, currency).Success?
    ensures InvoiceLinesXml(a + b, currency) ==
      Success(InvoiceLinesXml(a, currency).value + InvoiceLinesXml(b, currency).value)
  {
    RenderAllConcat(a, b, currency, InvoiceLineXml);
  }

  // ---------------------------------------------------------------- the document

  const UblSchema := "urn:oasis:names:specification:ubl:schema:xsd:"

  const Namespaces :=
    "xmlns=\"" + UblSchema + "Invoice-2\"\n"
    + Pad4 + "xmlns:cac=\"" + UblSchema + "CommonAggregateComponents-2\"\n"
    + Pad4 + "xmlns:cbc=\"" + UblSchema + "CommonBasicComponents-2\""

  const PeppolBilling := "urn:fdc:peppol.eu:2017:poacc:billing:"

  /** EN 16931 compliance with the PEPPOL BIS Billing 3.0 customization. */
  const CustomizationId := "urn:cen.eu:en16931:2017#compliant#" + PeppolBilling + "3.0"

  /** PEPPOL BIS Billing 3.0 profile. */
  const ProfileId := PeppolBilling + "01:1.0"

  const XmlDeclaration := "<?xml version=\"1.0\" encoding=\"UTF-8\"?>\n"

  predicate HeaderPresent(inv: PintInvoice) {
    inv.invoiceNumber.Some? && inv.issueDate.Some? && inv.invoiceType.Some? && inv.currencyCode.Some?
    && inv.supplierTrn.Some? && inv.supplierName.Some? && inv.customerName.Some?
  }

  predicate AmountsPresent(inv: PintInvoice) {
    inv.subtotalAmount.Some? && inv.totalAmount.Some? && inv.amountDue.Some?
  }

  /** The first header field the template reads by subscript and does not find. */
  function MissingHeaderKey(inv: PintInvoice): string
    requires !HeaderPresent(inv)
  {
    if inv.invoiceNumber.None? then "invoice_number"
    else if inv.issueDate.None? then "issue_date"
    else if inv.invoiceType.None? then "invoice_type"
    else if inv.currencyCode.None? then "currency_code"
    else if inv.supplierTrn.None? then "supplier_trn"
    else if inv.supplierName.None? then "supplier_name"
    else "customer_name"
  }

  /** The first document total the template reads by subscript and does not find. */
  function MissingAmountKey(inv: PintInvoice): string
    requires !AmountsPresent(inv)
  {
    if inv.subtotalAmount.None? then "subtotal_amount"
    else if inv.totalAmount.None? then "total_amount"
    else "amount_due"
  }

  /** The supplier legal-entity CompanyID: the PEPPOL id if given, else the TRN's first ten characters. */
  function SupplierCompanyId(inv: PintInvoice): (r: string)
    requires inv.supplierTrn.Some?
    ensures inv.supplierPeppolId.Some? ==> r == inv.supplierPeppolId.value
    ensures inv.supplierPeppolId.None? ==> r == inv.supplierTrn.value[..if |inv.supplierTrn.value| < 10 then |inv.supplierTrn.value| else 10]
  {
    var trn := inv.supplierTrn.value;
    GetOr(inv.supplierPeppolId, trn[..if |trn| < 10 then |trn| else 10])
  }

  /** Everything after the XML declaration down to the tax total. */
  function InvoiceHeader(inv: PintInvoice): string
    requires HeaderPresent(inv)
  {
    "<Invoice " + Namespaces + ">\n"
    + Pad4 + Comment("PINT-AE Profile and Customization") + "\n"
    + Pad4 + Cbc("CustomizationID", CustomizationId) + "\n"
    + Pad4 + Cbc("ProfileID", ProfileId) + "\n"
    + Pad4 + "\n"
    + Pad4 + Comment("Invoice Identification") + "\n"
    + Pad4 + Cbc("ID", XmlEscape(inv.invoiceNumber.value)) + "\n"
    + Pad4 + Cbc("IssueDate", FormatDate(inv.issueDate.value)) + "\n"
    + Pad4 + DueDateElement(inv) + "\n"
    + Pad4 + Cbc("InvoiceTypeCode", inv.invoiceType.value) + "\n"
    + Pad4 + OptionalElement("<cbc:Note>", "</cbc:Note>", inv.invoiceNotes, Escaped) + "\n"
    + Pad4 + Cbc("DocumentCurrencyCode", inv.currencyCode.value) + "\n"
    + Pad4 + OptionalElement("<cbc:BuyerReference>", "</cbc:BuyerReference>", inv.referenceNumber, Escaped) + "\n"
    + Pad4 + "\n"
    + Pad4 + Comment("Preceding Invoice Reference (for credit notes)") + "\n"
    + Pad4 + (if Truthy(inv.precedingInvoiceId) then PrecedingInvoiceReference(inv) else "") + "\n"
    + Pad4 + "\n"
    + SupplierParty(inv)
    + Pad4 + "\n"
    + CustomerParty(inv)
    + Pad4 + "\n"
    + Pad4 + Comment("Payment Terms") + "\n"
    + Pad4 + PaymentTermsElement(inv) + "\n"
    + Pad4 + "\n"
    + Pad4 + Comment("Tax Total") + "\n"
    + Pad4
  }

  function SupplierParty(inv: PintInvoice): string
    requires inv.supplierTrn.Some? && inv.supplierName.Some?
  {
    Pad4 + Comment("Accounting Supplier Party (Issuer)") + "\n"
    + Pad4 + "<cac:AccountingSupplierParty>\n"
    + Pad8 + "<cac:Party>\n"
    + Pad12 + Comment("Supplier Peppol Endpoint ID") + "\n"
    + Pad12 + (if Truthy(inv.supplierPeppolId) then EndpointId(inv.supplierPeppolId.value) else "") + "\n"
    + Pad12 + "\n"
    + Pad12 + Comment("Supplier Postal Address") + "\n"
    + Pad12 + "<cac:PostalAddress>\n"
    + Pad16 + OptionalElement("<cbc:StreetName>", "</cbc:StreetName>", inv.supplierAddress, Escaped) + "\n"
    + Pad16 + OptionalElement("<cbc:CityName>", "</cbc:CityName>", inv.supplierCity, Escaped) + "\n"
    + Pad16 + Cbc("CountrySubentityCode", GetOr(inv.supplierCountry, "AE")) + "\n"
    + Pad16 + "<cac:Country>\n"
    + Pad20 + Cbc("IdentificationCode", GetOr(inv.supplierCountry, "AE")) + "\n"
    + Pad16 + "</cac:Country>\n"
    + Pad12 + "</cac:PostalAddress>\n"
    + Pad12 + "\n"
    + Pad12 + Comment("Supplier Tax Scheme (TRN)") + "\n"
    + Pad12 + PartyTaxScheme(inv.supplierTrn.value) + "\n"
    + Pad12 + "\n"
    + Pad12 + Comment("Supplier Legal Entity") + "\n"
    + Pad12 + "<cac:PartyLegalEntity>\n"
    + Pad16 + Cbc("RegistrationName", XmlEscape(inv.supplierName.value)) + "\n"
    + Pad16 + Cbc("CompanyID", SupplierCompanyId(inv)) + "\n"
    + Pad12 + "</cac:PartyLegalEntity>\n"
    + Pad8 + "</cac:Party>\n"
    + Pad4 + "</cac:AccountingSupplierParty>\n"
  }

  function CustomerParty(inv: PintInvoice): string
    requires inv.customerName.Some?
  {
    Pad4 + Comment("Accounting Customer Party (Buyer)") + "\n"
    + Pad4 + "<cac:AccountingCustomerParty>\n"
    + Pad8 + "<cac:Party>\n"
    + Pad12 + Comment("Customer Peppol Endpoint ID") + "\n"
    + Pad12 + (if Truthy(inv.customerPeppolId) then EndpointId(inv.customerPeppolId.value) else "") + "\n"
    + Pad12 + "\n"
    + Pad12 + Comment("Customer Postal Address") + "\n"
    + Pad12 + "<cac:PostalAddress>\n"
    + Pad16 + OptionalElement("<cbc:StreetName>", "</cbc:StreetName>", inv.customerAddress, Escaped) + "\n"
    + Pad16 + OptionalElement("<cbc:CityName>", "</cbc:CityName>", inv.customerCity, Escaped) + "\n"
    + Pad16 + "<cac:Country>\n"
    + Pad20 + Cbc("IdentificationCode", GetOr(inv.customerCountry, "AE")) + "\n"
    + Pad16 + "</cac:Country>\n"
    + Pad12 + "</cac:PostalAddress>\n"
    + Pad12 + "\n"
    + Pad12 + Comment("Customer Tax Scheme (TRN if available)") + "\n"
    + Pad12 + (if Truthy(inv.customerTrn) then PartyTaxScheme(inv.customerTrn.value) else "") + "\n"
    + Pad12 + "\n"
    + Pad12 + Comment("Customer Legal Entity") + "\n"
    + Pad12 + "<cac:PartyLegalEntity>\n"
    + Pad16 + Cbc("RegistrationName", XmlEscape(inv.customerName.value)) + "\n"
    + Pad12 + "</cac:PartyLegalEntity>\n"
    + Pad8 + "</cac:Party>\n"
    + Pad4 + "</cac:AccountingCustomerParty>\n"
  }

  /**
   * The monetary totals between the tax total and the lines: line extension
   * and tax-exclusive amounts are both the subtotal, tax-inclusive the total,
   * payable the amount due.
   */
  function MonetaryTotal(inv: PintInvoice): string
    requires inv.currencyCode.Some? && AmountsPresent(inv)
  {
    var cur := inv.currencyCode.value;
    "\n" + Pad4 + "\n"
    + Pad4 + Comment("Legal Monetary Total") + "\n"
    + Pad4 + "<cac:LegalMonetaryTotal>\n"
    + Pad8 + AmountElement("LineExtensionAmount", cur, inv.subtotalAmount.value) + "\n"
    + Pad8 + AmountElement("TaxExclusiveAmount", cur, inv.subtotalAmount.value) + "\n"
    + Pad8 + AmountElement("TaxInclusiveAmount", cur, inv.totalAmount.value) + "\n"
    + Pad8 + AmountElement("PayableAmount", cur, inv.amountDue.value) + "\n"
    + Pad4 + "</cac:LegalMonetaryTotal>\n"
    + Pad4 + "\n"
    + Pad4 + Comment("Invoice Lines") + "\n"
  }

  /**
   * The document around its rendered tax total and lines: the XML
   * declaration, the header, the tax total, the monetary totals, the lines and
   * the closing tag.
   */
  function Assemble(inv: PintInvoice, taxTotal: string, lines: string): string
    requires HeaderPresent(inv) && AmountsPresent(inv)
  {
    XmlDeclaration + (InvoiceHeader(inv) + taxTotal + MonetaryTotal(inv)) + (lines + "\n</Invoice>")
  }

  lemma AssembleEnds(inv: PintInvoice, taxTotal: string, lines: string)
    requires HeaderPresent(inv) && AmountsPresent(inv)
    ensures StartsWith(Assemble(inv, taxTotal, lines), XmlDeclaration)
    ensures EndsWith(Assemble(inv, taxTotal, lines), lines + "\n</Invoice>")
  {
    ConcatEnds(XmlDeclaration, InvoiceHeader(inv) + taxTotal + MonetaryTotal(inv), lines + "\n</Invoice>");
  }

  /** What the template needs once every lookup has succeeded. */
  datatype Parts = Parts(inv: PintInvoice, taxTotal: string, lines: string)

  /**
   * The lookups the generator performs before assembling the document, in
   * its order: the invoice itself, then its header fields, then the
   * breakdown amounts, then the document totals, then the line fields. The
   * first missing key is the error.
   */
  function RenderParts(data: InvoiceData): (r: Result<Parts, string>)
    ensures r.Success? ==> data.invoice == Some(r.value.inv)
    ensures r.Success? ==> HeaderPresent(r.value.inv) && AmountsPresent(r.value.inv)
  {
    if data.invoice.None? then Failure("invoice")
    else
      var inv := data.invoice.value;
      if !HeaderPresent(inv) then Failure(MissingHeaderKey(inv))
      else
        var taxTotal := TaxTotalXml(data.taxBreakdowns, inv.currencyCode.value);
        if taxTotal.Failure? then Failure(taxTotal.error)
        else if !AmountsPresent(inv) then Failure(MissingAmountKey(inv))
        else
          var lines := InvoiceLinesXml(data.lineItems, inv.currencyCode.value);
          if lines.Failure? then Failure(lines.error)
          else Success(Parts(inv, taxTotal.value, lines.value))
  }

  /**
   * The lookups succeed exactly when the invoice, its header fields, its
   * document totals, every breakdown amount and every line field are present.
   */
  lemma RenderPartsSucceeds(data: InvoiceData)
    ensures RenderParts(data).Success? <==> (data.invoice.Some? && HeaderPresent(data.invoice.value) && AmountsPresent(data.invoice.value)
      && (forall i :: 0 <= i < |data.taxBreakdowns| ==> BreakdownComplete(data.taxBreakdowns[i]))
      && (forall i :: 0 <= i < |data.lineItems| ==> LineComplete(data.lineItems[i])))
  {
    if data.invoice.Some? && HeaderPresent(data.invoice.value) {
      var cur := data.invoice.value.currencyCode.value;
      var taxTotal := TaxTotalXml(data.taxBreakdowns, cur);
      var lines := InvoiceLinesXml(data.lineItems, cur);
    }
  }

  /**
   * The error cases in the generator's order: a missing invoice, then the
   * first missing header field, then a breakdown lacking an amount, then a
   * missing document total, then a line lacking a field.
   */
  lemma RenderPartsFailures(data: InvoiceData)
    ensures data.invoice.None? ==> RenderParts(data) == Failure("invoice")
    ensures data.invoice.Some? && !HeaderPresent(data.invoice.value) ==>
      RenderParts(data) == Failure(MissingHeaderKey(data.invoice.value))
    ensures (data.invoice.Some? && HeaderPresent(data.invoice.value)
      && TaxTotalXml(data.taxBreakdowns, data.invoice.value.currencyCode.value).Failure?) ==>
      RenderParts(data) == Failure(TaxTotalXml(data.taxBreakdowns, data.invoice.value.currencyCode.value).error)
    ensures (data.invoice.Some? && HeaderPresent(data.invoice.value)
      && TaxTotalXml(data.taxBreakdowns, data.invoice.value.currencyCode.value).Success?
      && !AmountsPresent(data.invoice.value)) ==>
      RenderParts(data) == Failure(MissingAmountKey(data.invoice.value))
  {
  }

  /** Renders the whole invoice, or names the first key the template needed and did not find. */
  function GeneratePintAeXml(data: InvoiceData): Result<string, string> {
    match RenderParts(data)
    case Failure(k) => Failure(k)
    case Success(p) => Success(Assemble(p.inv, p.taxTotal, p.lines))
  }

  /** A result holding the assembled parts opens and closes as the template does. */
  lemma AssembledEnds(p: Parts, g: Result<string, string>)
    requires HeaderPresent(p.inv) && AmountsPresent(p.inv)
    requires g == Success(Assemble(p.inv, p.taxTotal, p.lines))
    ensures StartsWith(g.value, XmlDeclaration)
    ensures EndsWith(g.value, p.lines + "\n</Invoice>")
  {
    AssembleEnds(p.inv, p.taxTotal, p.lines);
  }

  /**
   * A document is produced exactly when the lookups succeed (see
   * `RenderPartsSucceeds`), and it is then the template assembled from the
   * rendered parts (see `GeneratePintAeXmlEnds` for how it opens and
   * closes); otherwise the error is the first missing key.
   */
  lemma GeneratePintAeXmlContract(data: InvoiceData)
    ensures GeneratePintAeXml(data).Failure? <==> RenderParts(data).Failure?
    ensures GeneratePintAeXml(data).Failure? ==> GeneratePintAeXml(data).error == RenderParts(data).error
    ensures RenderParts(data).Success? ==>
      GeneratePintAeXml(data) == Success(Assemble(RenderParts(data).value.inv, RenderParts(data).value.taxTotal, RenderParts(data).value.lines))
  {
  }

  /**
   * When every lookup succeeds the document opens with the XML declaration
   * and closes with the rendered lines and the root's closing tag.
   */
  lemma GeneratePintAeXmlEnds(data: InvoiceData)
    requires RenderParts(data).Success?
    ensures GeneratePintAeXml(data).Success?
    ensures StartsWith(GeneratePintAeXml(data).value, XmlDeclaration)
    ensures EndsWith(GeneratePintAeXml(data).value, RenderParts(data).value.lines + "\n</Invoice>")
  {
    GeneratePintAeXmlContract(data);
    AssembledEnds(RenderParts(data).value, GeneratePintAeXml(data));
  }

  /** The document's fingerprint: the hex SHA-256 digest of its UTF-8 bytes. */
  function CalculateXmlHash(sha256: string -> seq<Byte>, xmlContent: string): (r: string)
    ensures |r| == 2 * |sha256(xmlContent)|
    ensures forall i :: 0 <= i < |r| ==> IsLowerHex(r[i])
    ensures HexDecode(r) == sha256(xmlContent)
  {
    HexRoundTrip(sha256(xmlContent));
    HexDigest(sha256(xmlContent))
  }

  // ---------------------------------------------------------------- validation

  /**
   * The validator's findings; `Message` gives the exact text reported for
   * each.
   */
  datatype PintAeError =
    | MissingField(fieldLabel: string)
    | NoLineItems
    | SupplierTrnLength
    | CustomerTrnLength
    | NoCreditNoteReason
    | NoPrecedingInvoice
    | NoAedAmount

  function Message(e: PintAeError): string {
    match e
    case MissingField(l) => "Missing required field: " + l
    case NoLineItems => "At least one invoice line item is required"
    case SupplierTrnLength => "Supplier TRN must be exactly 15 digits"
    case CustomerTrnLength => "Customer TRN must be exactly 15 digits"
    case NoCreditNoteReason => "Credit note reason is mandatory for type 381"
    case NoPrecedingInvoice => "Preceding invoice reference is mandatory for credit notes"
    case NoAedAmount => "AED conversion amount required when currency is not AED"
  }

  /** The seven mandatory header fields with their labels, in checking order. */
  function RequiredFields(inv: PintInvoice): seq<(bool, string)> {
    [(Truthy(inv.invoiceNumber), "Invoice number"),
     (TruthyDate(inv.issueDate), "Issue date"),
     (Truthy(inv.invoiceType), "Invoice type code"),
     (Truthy(inv.currencyCode), "Currency code"),
     (Truthy(inv.supplierTrn), "Supplier TRN"),
     (Truthy(inv.supplierName), "Supplier name"),
     (Truthy(inv.customerName), "Customer name")]
  }

  /** One missing-field error per falsy field, in order. */
  function MissingFieldErrors(fields: seq<(bool, string)>): seq<PintAeError> {
    if fields == [] then []
    else
      var last := fields[|fields| - 1];
      MissingFieldErrors(fields[..|fields| - 1]) + (if last.0 then [] else [MissingField(last.1)])
  }

  /** `invoice_data.get("invoice", {})` */
  function InvoiceOf(data: InvoiceData): PintInvoice {
    if data.invoice.Some? then data.invoice.value else EmptyInvoice
  }

  function LineItemErrors(data: InvoiceData): seq<PintAeError> {
    if data.lineItems == [] then [NoLineItems] else []
  }

  function TrnErrors(inv: PintInvoice): seq<PintAeError> {
    (if Truthy(inv.supplierTrn) && |inv.supplierTrn.value| != 15 then [SupplierTrnLength] else [])
    + (if Truthy(inv.customerTrn) && |inv.customerTrn.value| != 15 then [CustomerTrnLength] else [])
  }

  /** Type code 381 is the UAE tax credit note. */
  predicate IsCreditNote(inv: PintInvoice) {
    inv.invoiceType == Some("381")
  }

  /** Amounts in AED need no converted total. */
  predicate InAed(inv: PintInvoice) {
    inv.currencyCode == Some("AED")
  }

  function ReasonError(inv: PintInvoice): seq<PintAeError> {
    if !Truthy(inv.creditNoteReason) then [NoCreditNoteReason] else []
  }

  function PrecedingError(inv: PintInvoice): seq<PintAeError> {
    if !Truthy(inv.precedingInvoiceId) then [NoPrecedingInvoice] else []
  }

  /** A credit note must give its reason and its preceding invoice. */
  function CreditNoteErrors(inv: PintInvoice): seq<PintAeError> {
    if IsCreditNote(inv) then ReasonError(inv) + PrecedingError(inv) else []
  }

  function CurrencyErrors(inv: PintInvoice): seq<PintAeError> {
    if !InAed(inv) && !TruthyNum(inv.totalAmountAed) then [NoAedAmount] else []
  }

  /** Every error the validator reports, in reporting order. */
  function PintAeErrors(data: InvoiceData): seq<PintAeError> {
    var inv := InvoiceOf(data);
    MissingFieldErrors(RequiredFields(inv)) + LineItemErrors(data) + TrnErrors(inv) + CreditNoteErrors(inv) + CurrencyErrors(inv)
  }

  /** The mandatory-field pass: one error per falsy field, in checking order. */
  method CheckRequiredFields(inv: PintInvoice) returns (errors: seq<PintAeError>)
    ensures errors == MissingFieldErrors(RequiredFields(inv))
  {
    errors := [];
    var requiredFields := RequiredFields(inv);
    for i := 0 to |requiredFields|
      invariant errors == MissingFieldErrors(requiredFields[..i])
    {
      assert requiredFields[..i + 1][..i] == requiredFields[..i];
      var field := requiredFields[i];
      if !field.0 {
        errors := errors + [MissingField(field.1)];
      }
    }
    assert requiredFields[..|requiredFields|] == requiredFields;
  }

  /** The TRN pass: a given TRN must have fifteen characters. */
  method CheckTrns(inv: PintInvoice, errors: seq<PintAeError>) returns (r: seq<PintAeError>)
    ensures r == errors + TrnErrors(inv)
  {
    r := errors;
    if Truthy(inv.supplierTrn) && |inv.supplierTrn.value| != 15 {
      r := r + [SupplierTrnLength];
    }
    if Truthy(inv.customerTrn) && |inv.customerTrn.value| != 15 {
      r := r + [CustomerTrnLength];
    }
    AppendAssoc(errors,
      if Truthy(inv.supplierTrn) && |inv.supplierTrn.value| != 15 then [SupplierTrnLength] else [],
      if Truthy(inv.customerTrn) && |inv.customerTrn.value| != 15 then [CustomerTrnLength] else []);
  }

  /** The credit-note pass: type 381 needs a reason and a preceding invoice. */
  method CheckCreditNote(inv: PintInvoice, errors: seq<PintAeError>) returns (r: seq<PintAeError>)
    ensures r == errors + CreditNoteErrors(inv)
  {
    r := errors;
    if IsCreditNote(inv) {
      if !Truthy(inv.creditNoteReason) {
        r := r + [NoCreditNoteReason];
      }
      if !Truthy(inv.precedingInvoiceId) {
        r := r + [NoPrecedingInvoice];
      }
      AppendAssoc(errors, ReasonError(inv), PrecedingError(inv));
    }
  }

  /** Collects every PINT-AE error without stopping at the first. */
  method ValidatePintAeInvoice(data: InvoiceData) returns (errors: seq<PintAeError>)
    ensures errors == PintAeErrors(data)
  {
    var inv := InvoiceOf(data);
    errors := CheckRequiredFields(inv);
    if data.lineItems == [] {
      errors := errors + [NoLineItems];
    }
    assert errors == MissingFieldErrors(RequiredFields(inv)) + LineItemErrors(data);
    errors := CheckTrns(inv, errors);
    errors := CheckCreditNote(inv, errors);
    if !InAed(inv) && !TruthyNum(inv.totalAmountAed) {
      errors := errors + [NoAedAmount];
    }
  }

  /** The number of missing-field messages is the number of falsy mandatory fields. */
  lemma {:induction false} MissingFieldErrorsCount(fields: seq<(bool, string)>)
    ensures |MissingFieldErrors(fields)| == |set i | 0 <= i < |fields| && !fields[i].0|
    ensures MissingFieldErrors(fields) == [] <==> forall i :: 0 <= i < |fields| ==> fields[i].0
  {
    if fields != [] {
      var n := |fields| - 1;
      var p := fields[..n];
      MissingFieldErrorsCount(p);
      FalsyIndicesStep(fields);
      assert forall i :: 0 <= i < n ==> p[i] == fields[i];
      if fields[n].0 {
        assert MissingFieldErrors(fields) == MissingFieldErrors(p);
      } else {
        assert MissingFieldErrors(fields) == MissingFieldErrors(p) + [MissingField(fields[n].1)];
      }
    }
  }

  /** The falsy indices of a list grow by the last index exactly when the last field is falsy. */
  lemma FalsyIndicesStep(fields: seq<(bool, string)>)
    requires fields != []
    ensures var n := |fields| - 1;
      |set i | 0 <= i < |fields| && !fields[i].0| ==
      |set i | 0 <= i < n && !fields[..n][i].0| + (if fields[n].0 then 0 else 1)
  {
    var n := |fields| - 1;
    var sp := set i | 0 <= i < n && !fields[..n][i].0;
    var sf := set i | 0 <= i < |fields| && !fields[i].0;
    if fields[n].0 {
      assert sf == sp;
    } else {
      assert sf == sp + {n};
    }
  }

  /**
   * The invoice passes exactly when every mandatory field is set, there is a
   * line, both TRNs (when given) have 15 characters, a credit note (type 381)
   * carries its reason and preceding invoice, and a non-AED invoice carries
   * its AED total.
   */
  lemma PintAeValidIff(data: InvoiceData)
    ensures PintAeErrors(data) == [] <==>
      var inv := InvoiceOf(data);
      (forall i :: 0 <= i < 7 ==> RequiredFields(inv)[i].0)
      && data.lineItems != []
      && (Truthy(inv.supplierTrn) ==> |inv.supplierTrn.value| == 15)
      && (Truthy(inv.customerTrn) ==> |inv.customerTrn.value| == 15)
      && (IsCreditNote(inv) ==> Truthy(inv.creditNoteReason) && Truthy(inv.precedingInvoiceId))
      && (!InAed(inv) ==> TruthyNum(inv.totalAmountAed))
  {
    MissingFieldErrorsCount(RequiredFields(InvoiceOf(data)));
  }

  /**
   * The TRN checks look at the length only: a fifteen-letter supplier TRN
   * draws no TRN error.
   */
  lemma TrnCheckedByLengthOnly(data: InvoiceData)
    requires data.invoice.Some? && data.invoice.value.supplierTrn == Some("ABCDEFGHIJKLMNO")
    ensures SupplierTrnLength !in PintAeErrors(data)
  {
    MissingFieldsOnly(RequiredFields(InvoiceOf(data)));
  }

  lemma {:induction false} MissingFieldsOnly(fields: seq<(bool, string)>)
    ensures forall e :: e in MissingFieldErrors(fields) ==> e.MissingField?
  {
    if fields != [] {
      MissingFieldsOnly(fields[..|fields| - 1]);
    }
  }
}
