/**
 * The element-tree serialiser of a UBL 2.1 Invoice (PEPPOL BIS Billing 3.0
 * identifiers): a generator object whose root element grows child by child in
 * a fixed order, the validator that collects every problem with the input
 * before anything is built, and the convenience entry point that combines the
 * two. The tree is the value the generator builds; turning it into indented
 * text is not modelled.
 */
module UblTree {
  import opened Common
  import UblTemplate

  // ---------------------------------------------------------------- the tree

  /** Local names of the elements the generator emits. */
  datatype ElementName =
    | UBLVersionID | CustomizationID | ProfileID | ID | IssueDate | DueDate | InvoiceTypeCode
    | DocumentCurrencyCode | TaxCurrencyCode | Note | OrderReference | BillingReference
    | InvoiceDocumentReference | AccountingSupplierParty | AccountingCustomerParty | Party
    | EndpointID | PartyIdentification | PartyName | Name | PostalAddress | StreetName | CityName
    | Country | IdentificationCode | PartyTaxScheme | CompanyID | TaxScheme | PartyLegalEntity
    | RegistrationName | Contact | ElectronicMail | PaymentTerms | TaxTotal | TaxAmount
    | TaxSubtotal | TaxableAmount | TaxCategory | Percent | LegalMonetaryTotal
    | LineExtensionAmount | TaxExclusiveAmount | TaxInclusiveAmount | PayableAmount | InvoiceLine
    | InvoicedQuantity | Item | Description | SellersItemIdentification | ClassifiedTaxCategory
    | Price | PriceAmount

  /**
   * A qualified element name: the unprefixed root `Invoice`, a basic
   * component (`cbc:`) or an aggregate component (`cac:`).
   */
  datatype Tag = Invoice | Cbc(local: ElementName) | Cac(local: ElementName)

  /** Attribute names the generator sets. */
  datatype AttrName = Xmlns | XmlnsCac | XmlnsCbc | CurrencyID | SchemeID | UnitCode

  /**
   * The text of an element, kept as the value it renders: a string used as
   * given, an amount in cents written with two decimals (`f"{x:.2f}"`), a
   * whole number (`str(n)`) or a calendar date written `YYYY-MM-DD`.
   */
  datatype Text = Plain(s: string) | TwoDecimals(hundredths: int) | Whole(n: int) | Ymd(date: Date)

  /** The characters an element's text consists of. */
  function TextString(t: Text): string {
    match t
    case Plain(s) => s
    case TwoDecimals(h) => FormatCents(h)
    case Whole(n) => IntToString(n)
    case Ymd(x) => FormatYmd(x)
  }

  /** An element: tag, attributes, optional text and ordered children. */
  datatype Node = Node(tag: Tag, attrs: map<AttrName, string>, text: Option<Text>, children: seq<Node>)

  /**
   * The tag `_add_element` gives an element: a name that already carries a
   * namespace prefix is kept, any other name is put in the `cbc:` namespace.
   */
  function ElementTag(tag: string): string {
    if ContainsChar(tag, ':') then tag else "cbc:" + tag
  }

  /** A bare name is prefixed; an already prefixed one is left alone, so the rule is idempotent. */
  lemma ElementTagPrefixes(tag: string)
    ensures !ContainsChar(tag, ':') ==> ElementTag(tag) == "cbc:" + tag
    ensures ContainsChar(ElementTag(tag), ':')
    ensures ElementTag(ElementTag(tag)) == ElementTag(tag)
  {
    if !ContainsChar(tag, ':') {
      assert ("cbc:" + tag)[3] == ':';
    }
  }

  /** The local name an element is written with, as the generator spells it. */
  function LocalName(e: ElementName): string {
    match e
    case UBLVersionID => "UBLVersionID"
    case CustomizationID => "CustomizationID"
    case ProfileID => "ProfileID"
    case ID => "ID"
    case IssueDate => "IssueDate"
    case DueDate => "DueDate"
    case InvoiceTypeCode => "InvoiceTypeCode"
    case DocumentCurrencyCode => "DocumentCurrencyCode"
    case TaxCurrencyCode => "TaxCurrencyCode"
    case Note => "Note"
    case OrderReference => "OrderReference"
    case BillingReference => "BillingReference"
    case InvoiceDocumentReference => "InvoiceDocumentReference"
    case AccountingSupplierParty => "AccountingSupplierParty"
    case AccountingCustomerParty => "AccountingCustomerParty"
    case Party => "Party"
    case EndpointID => "EndpointID"
    case PartyIdentification => "PartyIdentification"
    case PartyName => "PartyName"
    case Name => "Name"
    case PostalAddress => "PostalAddress"
    case StreetName => "StreetName"
    case CityName => "CityName"
    case Country => "Country"
    case IdentificationCode => "IdentificationCode"
    case PartyTaxScheme => "PartyTaxScheme"
    case CompanyID => "CompanyID"
    case TaxScheme => "TaxScheme"
    case PartyLegalEntity => "PartyLegalEntity"
    case RegistrationName => "RegistrationName"
    case Contact => "Contact"
    case ElectronicMail => "ElectronicMail"
    case PaymentTerms => "PaymentTerms"
    case TaxTotal => "TaxTotal"
    case TaxAmount => "TaxAmount"
    case TaxSubtotal => "TaxSubtotal"
    case TaxableAmount => "TaxableAmount"
    case TaxCategory => "TaxCategory"
    case Percent => "Percent"
    case LegalMonetaryTotal => "LegalMonetaryTotal"
    case LineExtensionAmount => "LineExtensionAmount"
    case TaxExclusiveAmount => "TaxExclusiveAmount"
    case TaxInclusiveAmount => "TaxInclusiveAmount"
    case PayableAmount => "PayableAmount"
    case InvoiceLine => "InvoiceLine"
    case InvoicedQuantity => "InvoicedQuantity"
    case Item => "Item"
    case Description => "Description"
    case SellersItemIdentification => "SellersItemIdentification"
    case ClassifiedTaxCategory => "ClassifiedTaxCategory"
    case Price => "Price"
    case PriceAmount => "PriceAmount"
  }

  /**
   * The name an element is created with: the root is `Invoice`, a basic
   * component gets its name through `_add_element`'s prefix rule, and an
   * aggregate component is created directly as `cac:` plus its local name.
   */
  function QualifiedName(t: Tag): string {
    match t
    case Invoice => "Invoice"
    case Cbc(e) => ElementTag(LocalName(e))
    case Cac(e) => "cac:" + LocalName(e)
  }

  /**
   * Every element below the root is created with a prefixed name: a basic
   * component goes through `_add_element`'s rule, which puts a bare name in
   * the `cbc:` namespace, and an aggregate component is created as `cac:`
   * plus its name. Passing any of these names through the rule again leaves
   * it unchanged.
   */
  lemma QualifiedNamePrefixed(t: Tag)
    ensures t.Cbc? && !ContainsChar(LocalName(t.local), ':') ==> QualifiedName(t) == "cbc:" + LocalName(t.local)
    ensures t.Cac? ==> QualifiedName(t) == "cac:" + LocalName(t.local)
    ensures t != Invoice ==> ContainsChar(QualifiedName(t), ':')
    ensures t != Invoice ==> ElementTag(QualifiedName(t)) == QualifiedName(t)
  {
    match t
    case Invoice =>
    case Cbc(e) =>
      ElementTagPrefixes(LocalName(e));
    case Cac(e) =>
      assert ("cac:" + LocalName(e))[3] == ':';
  }

  /** `_add_element(parent, name, text)`: a basic component holding text. */
  function Leaf(e: ElementName, text: string): Node {
    Valued(e, Plain(text))
  }

  /** A basic component with one attribute set after creation. */
  function LeafWith(e: ElementName, text: Text, a: AttrName, value: string): Node {
    Node(Cbc(e), map[a := value], Some(text), [])
  }

  /** A basic component holding a date or a number. */
  function Valued(e: ElementName, text: Text): Node {
    Node(Cbc(e), map[], Some(text), [])
  }

  /** `SubElement(parent, 'cac:...')` with the children added to it. */
  function Group(e: ElementName, kids: seq<Node>): Node {
    Node(Cac(e), map[], None, kids)
  }

  /** A monetary amount with two decimals and its currency attribute. */
  function Amount(e: ElementName, cents: int, currency: string): Node {
    LeafWith(e, TwoDecimals(cents), CurrencyID, currency)
  }

  /** `n` with `kids` appended to its children. */
  function Extended(n: Node, kids: seq<Node>): Node {
    n.(children := n.children + kids)
  }

  lemma ExtendedTwice(n: Node, a: seq<Node>, b: seq<Node>)
    ensures Extended(Extended(n, a), b) == Extended(n, a + b)
  {
    assert n.children + a + b == n.children + (a + b);
  }

  /** The tags of a sequence of elements, in order. */
  function Tags(kids: seq<Node>): (ts: seq<Tag>)
    ensures |ts| == |kids|
  {
    if kids == [] then [] else [kids[0].tag] + Tags(kids[1..])
  }

  /** The first child carrying tag `t`, as `find` would return it. */
  function Find(kids: seq<Node>, t: Tag): Option<Node> {
    if kids == [] then None else if kids[0].tag == t then Some(kids[0]) else Find(kids[1..], t)
  }

  /** Number of children carrying tag `t`. */
  function Count(kids: seq<Node>, t: Tag): nat {
    if kids == [] then 0 else (if kids[0].tag == t then 1 else 0) + Count(kids[1..], t)
  }

  /** The first of two searches that found something. */
  function FirstFound(a: Option<Node>, b: Option<Node>): Option<Node> {
    if a.Some? then a else b
  }

  lemma {:induction false} FindConcat(a: seq<Node>, b: seq<Node>, t: Tag)
    ensures Find(a + b, t) == FirstFound(Find(a, t), Find(b, t))
  {
    if a != [] {
      assert (a + b)[1..] == a[1..] + b;
      FindConcat(a[1..], b, t);
    } else {
      assert a + b == b;
    }
  }

  lemma {:induction false} CountConcat(a: seq<Node>, b: seq<Node>, t: Tag)
    ensures Count(a + b, t) == Count(a, t) + Count(b, t)
  {
    if a != [] {
      assert (a + b)[1..] == a[1..] + b;
      CountConcat(a[1..], b, t);
    } else {
      assert a + b == b;
    }
  }

  lemma {:induction false} TagsConcat(a: seq<Node>, b: seq<Node>)
    ensures Tags(a + b) == Tags(a) + Tags(b)
  {
    if a != [] {
      assert (a + b)[1..] == a[1..] + b;
      TagsConcat(a[1..], b);
    } else {
      assert a + b == b;
    }
  }

  lemma TagsSingle(x: Node)
    ensures Tags([x]) == [x.tag]
  {
    assert [x][1..] == [];
  }

  /** A tag that is present only under a condition. */
  function OptTag(present: bool, t: Tag): seq<Tag> {
    if present then [t] else []
  }

  /** An element present only under a condition contributes its tag under that condition. */
  lemma TagsOfOptional(xs: seq<Node>, present: bool, t: Tag)
    requires if present then |xs| == 1 && xs[0].tag == t else xs == []
    ensures Tags(xs) == OptTag(present, t)
  {
  }

  /** Nor is any other tag found there. */
  lemma FindAbsentOptional(xs: seq<Node>, present: bool, t: Tag, u: Tag)
    requires if present then |xs| == 1 && xs[0].tag == t else xs == []
    requires u != t
    ensures Find(xs, u).None?
  {
  }

  // ---------------------------------------------------------------- input

  /** A date field holds either text or a `date`/`datetime` value. */
  datatype DateField = DateText(text: string) | CalendarDate(date: Date)

  /** Truthiness of a date field: absent and "" are falsy, a date never is. */
  predicate TruthyDate(o: Option<DateField>) {
    o.Some? && (o.value.CalendarDate? || o.value.text != "")
  }

  /** Dates are rendered `YYYY-MM-DD`; text is used as given. */
  function DateFieldText(f: DateField): Text {
    match f
    case CalendarDate(x) => Ymd(x)
    case DateText(s) => Plain(s)
  }

  /**
   * The invoice dictionary. `None` is an absent key; amounts are whole cents
   * (hundredths for quantities and percentages).
   */
  datatype InvoiceData = InvoiceData(
    invoiceNumber: Option<string>, issueDate: Option<DateField>, dueDate: Option<DateField>,
    invoiceType: Option<string>, currencyCode: Option<string>, invoiceNotes: Option<string>,
    referenceNumber: Option<string>, precedingInvoiceId: Option<string>,
    supplierPeppolId: Option<string>, supplierTrn: Option<string>, supplierName: Option<string>,
    supplierAddress: Option<string>, supplierCity: Option<string>, supplierCountry: Option<string>,
    customerPeppolId: Option<string>, customerTrn: Option<string>, customerName: Option<string>,
    customerAddress: Option<string>, customerCity: Option<string>, customerCountry: Option<string>,
    customerEmail: Option<string>, paymentTerms: Option<string>,
    subtotalAmount: Option<int>, taxAmount: Option<int>, totalAmount: Option<int>,
    totalAmountAed: Option<int>, amountDue: Option<int>)

  /** One line-item dictionary. */
  datatype LineItem = LineItem(
    lineNumber: Option<int>, quantity: Option<int>, unitCode: Option<string>,
    lineExtensionAmount: Option<int>, itemDescription: Option<string>, itemName: Option<string>,
    itemCode: Option<string>, taxPercent: Option<int>, unitPrice: Option<int>)

  // ---------------------------------------------------------------- the subtrees

  /** The root `Invoice` element with its three namespace declarations and no children. */
  function InvoiceRoot(): Node {
    Node(Invoice, map[
      Xmlns := UblTemplate.UblSchema + "Invoice-2",
      XmlnsCac := UblTemplate.UblSchema + "CommonAggregateComponents-2",
      XmlnsCbc := UblTemplate.UblSchema + "CommonBasicComponents-2"], None, [])
  }

  /** UBL version, then the PEPPOL BIS customization and profile identifiers. */
  function Preamble(): seq<Node> {
    [UblVersion()] + [CustomizationIdElement()] + [ProfileIdElement()]
  }

  function UblVersion(): Node {
    Leaf(UBLVersionID, "2.1")
  }

  function CustomizationIdElement(): Node {
    Leaf(CustomizationID, UblTemplate.CustomizationId)
  }

  function ProfileIdElement(): Node {
    Leaf(ProfileID, UblTemplate.ProfileId)
  }

  /** `issue_date or now`, a date being rendered first. */
  function IssueDateText(o: Option<DateField>, today: Date): Text {
    if TruthyDate(o) then DateFieldText(o.value) else Ymd(today)
  }

  /** 381 (credit note) when the upper-cased type mentions CREDIT, else 380. */
  function TypeCode(invoiceType: string): string {
    if Contains(Upper(invoiceType), "CREDIT") then "381" else "380"
  }

  function Currency(d: InvoiceData): string {
    GetOr(d.currencyCode, "AED")
  }

  /** The invoice note, present only when `invoice_notes` is truthy. */
  function NoteElements(d: InvoiceData): seq<Node> {
    if Truthy(d.invoiceNotes) then [Leaf(Note, d.invoiceNotes.value)] else []
  }

  /** The order reference, present only when `reference_number` is truthy. */
  function OrderReferenceElements(d: InvoiceData): seq<Node> {
    if Truthy(d.referenceNumber) then [Group(OrderReference, [Leaf(ID, d.referenceNumber.value)])] else []
  }

  /** The reference to the preceding invoice, present only when `preceding_invoice_id` is truthy. */
  function BillingReferenceElements(d: InvoiceData): seq<Node> {
    if Truthy(d.precedingInvoiceId) then
      [Group(BillingReference, [Group(InvoiceDocumentReference, [Leaf(ID, d.precedingInvoiceId.value)])])]
    else []
  }

  /** The due date, present only when `due_date` is truthy. */
  function DueDateElements(d: InvoiceData): seq<Node> {
    if TruthyDate(d.dueDate) then [Valued(DueDate, DateFieldText(d.dueDate.value))] else []
  }

  function HeaderElements(d: InvoiceData, today: Date): seq<Node> {
    [Leaf(ID, GetOr(d.invoiceNumber, ""))] + [Valued(IssueDate, IssueDateText(d.issueDate, today))]
    + DueDateElements(d)
    + [Leaf(InvoiceTypeCode, TypeCode(GetOr(d.invoiceType, "TAX_INVOICE")))]
    + [Leaf(DocumentCurrencyCode, Currency(d))]
    + [Leaf(TaxCurrencyCode, "AED")]
    + NoteElements(d) + OrderReferenceElements(d) + BillingReferenceElements(d)
  }

  /** The optional `EndpointID` of a party, in scheme 0195. */
  function Endpoint(peppolId: Option<string>): seq<Node> {
    if Truthy(peppolId) then [LeafWith(EndpointID, Plain(peppolId.value), SchemeID, "0195")] else []
  }

  /** The postal address, present when the street or the city is; the country defaults to AE. */
  function PostalAddressElements(street: Option<string>, city: Option<string>, country: Option<string>): seq<Node> {
    if Truthy(street) || Truthy(city) then
      [Group(PostalAddress,
         (if Truthy(street) then [Leaf(StreetName, street.value)] else [])
         + (if Truthy(city) then [Leaf(CityName, city.value)] else [])
         + [Group(Country, [Leaf(IdentificationCode, GetOr(country, "AE"))])])]
    else []
  }

  function TrnIdentification(trn: string): Node {
    Group(PartyIdentification, [LeafWith(ID, Plain(trn), SchemeID, "TRN")])
  }

  const VatTaxScheme := Group(TaxScheme, [Leaf(ID, "VAT")])

  /** The supplier's party: endpoint, TRN, name, address, VAT registration, legal name. */
  function SupplierPartyContents(d: InvoiceData): seq<Node> {
    Endpoint(d.supplierPeppolId)
    + [TrnIdentification(GetOr(d.supplierTrn, ""))]
    + [Group(PartyName, [Leaf(Name, GetOr(d.supplierName, ""))])]
    + PostalAddressElements(d.supplierAddress, d.supplierCity, d.supplierCountry)
    + [Group(PartyTaxScheme, [Leaf(CompanyID, GetOr(d.supplierTrn, "")), VatTaxScheme])]
    + [Group(PartyLegalEntity, [Leaf(RegistrationName, GetOr(d.supplierName, ""))])]
  }

  function SupplierParty(d: InvoiceData): Node {
    Group(AccountingSupplierParty, [Group(Party, SupplierPartyContents(d))])
  }

  /** The customer's TRN, present only when `customer_trn` is truthy. */
  function CustomerIdentification(d: InvoiceData): seq<Node> {
    if Truthy(d.customerTrn) then [TrnIdentification(d.customerTrn.value)] else []
  }

  /** The customer's e-mail contact, present only when `customer_email` is truthy. */
  function ContactElements(d: InvoiceData): seq<Node> {
    if Truthy(d.customerEmail) then [Group(Contact, [Leaf(ElectronicMail, d.customerEmail.value)])] else []
  }

  /** The customer's party: endpoint, TRN, name, address, legal name, contact. */
  function CustomerPartyContents(d: InvoiceData): seq<Node> {
    Endpoint(d.customerPeppolId)
    + CustomerIdentification(d)
    + [Group(PartyName, [Leaf(Name, GetOr(d.customerName, ""))])]
    + PostalAddressElements(d.customerAddress, d.customerCity, d.customerCountry)
    + [Group(PartyLegalEntity, [Leaf(RegistrationName, GetOr(d.customerName, ""))])]
    + ContactElements(d)
  }

  function CustomerParty(d: InvoiceData): Node {
    Group(AccountingCustomerParty, [Group(Party, CustomerPartyContents(d))])
  }

  function PaymentTermsElements(d: InvoiceData): seq<Node> {
    if Truthy(d.paymentTerms) then [Group(PaymentTerms, [Leaf(Note, d.paymentTerms.value)])] else []
  }

  /**
   * The tax rate in hundredths of a percent: tax / subtotal * 100 when the
   * subtotal is positive, otherwise 5.00.
   */
  function TaxRatePercent(d: InvoiceData): int {
    var sub := GetOrInt(d.subtotalAmount, 0);
    if sub > 0 then RoundHalfUpCents((GetOrInt(d.taxAmount, 0) as real) / (sub as real) * 100.0) else 500
  }

  /** The tax total in the document currency, with its one subtotal in category S. */
  function DocumentTaxTotal(d: InvoiceData): Node {
    var cur := Currency(d);
    var tax := GetOrInt(d.taxAmount, 0);
    Group(TaxTotal, [Amount(TaxAmount, tax, cur),
      Group(TaxSubtotal, [Amount(TaxableAmount, GetOrInt(d.subtotalAmount, 0), cur), Amount(TaxAmount, tax, cur),
        Group(TaxCategory, [Leaf(ID, "S"), Valued(Percent, TwoDecimals(TaxRatePercent(d))), VatTaxScheme])])])
  }

  /** The tax amount again in AED, for a foreign-currency invoice that has an AED total. */
  function AedTaxTotal(d: InvoiceData): seq<Node> {
    if Currency(d) != "AED" && TruthyNum(d.totalAmountAed) then
      [Group(TaxTotal, [Amount(TaxAmount, GetOrInt(d.taxAmount, 0), "AED")])]
    else []
  }

  function TaxTotalElements(d: InvoiceData): seq<Node> {
    [DocumentTaxTotal(d)] + AedTaxTotal(d)
  }

  /** The payable amount: `amount_due`, falling back to `total_amount`, then to 0. */
  function Payable(d: InvoiceData): int {
    GetOrInt(d.amountDue, GetOrInt(d.totalAmount, 0))
  }

  function MonetaryTotal(d: InvoiceData): Node {
    var cur := Currency(d);
    var sub := GetOrInt(d.subtotalAmount, 0);
    Group(LegalMonetaryTotal, [Amount(LineExtensionAmount, sub, cur), Amount(TaxExclusiveAmount, sub, cur),
      Amount(TaxInclusiveAmount, GetOrInt(d.totalAmount, 0), cur), Amount(PayableAmount, Payable(d), cur)])
  }

  function InvoiceLineElement(l: LineItem): Node {
    Group(InvoiceLine, [
      Valued(ID, Whole(GetOrInt(l.lineNumber, 1))),
      LeafWith(InvoicedQuantity, TwoDecimals(GetOrInt(l.quantity, 100)), UnitCode, GetOr(l.unitCode, "C62")),
      Amount(LineExtensionAmount, GetOrInt(l.lineExtensionAmount, 0), "AED"),
      Group(Item, [Leaf(Description, GetOr(l.itemDescription, GetOr(l.itemName, ""))), Leaf(Name, GetOr(l.itemName, ""))]
        + (if Truthy(l.itemCode) then [Group(SellersItemIdentification, [Leaf(ID, l.itemCode.value)])] else [])
        + [Group(ClassifiedTaxCategory, [Leaf(ID, "S"), Valued(Percent, TwoDecimals(GetOrInt(l.taxPercent, 500))), VatTaxScheme])]),
      Group(Price, [Amount(PriceAmount, GetOrInt(l.unitPrice, 0), "AED")])])
  }

  /** One `InvoiceLine` per item, in the order given. */
  function InvoiceLines(items: seq<LineItem>): (r: seq<Node>)
    ensures |r| == |items|
  {
    if items == [] then [] else InvoiceLines(items[..|items| - 1]) + [InvoiceLineElement(items[|items| - 1])]
  }

  /** Every child of the root, in the order `generate_invoice_xml` adds them. */
  function RootChildren(d: InvoiceData, items: seq<LineItem>, today: Date): seq<Node> {
    Preamble() + HeaderElements(d, today) + [SupplierParty(d)] + [CustomerParty(d)]
    + PaymentTermsElements(d) + TaxTotalElements(d) + [MonetaryTotal(d)] + InvoiceLines(items)
  }

  /** The complete tree for an invoice and its lines, `today` standing for the clock. */
  function InvoiceTree(d: InvoiceData, items: seq<LineItem>, today: Date): Node {
    Extended(InvoiceRoot(), RootChildren(d, items, today))
  }

  // ---------------------------------------------------------------- the generator

  class UblXmlGenerator {
    /** The element being built; absent until generation starts. */
    var root: Option<Node>

    constructor()
      ensures root == None
    {
      root := None;
    }

    /** `SubElement(self.root, ...)`: appends one child to the root. */
    method AddChild(child: Node)
      requires root.Some?
      modifies this
      ensures root == Some(Extended(old(root.value), [child]))
    {
      root := Some(Extended(root.value, [child]));
    }

    method AddUblVersion()
      requires root.Some?
      modifies this
      ensures root == Some(Extended(old(root.value), [UblVersion()]))
    {
      AddChild(UblVersion());
    }

    method AddCustomizationId()
      requires root.Some?
      modifies this
      ensures root == Some(Extended(old(root.value), [CustomizationIdElement()]))
    {
      AddChild(CustomizationIdElement());
    }

    method AddProfileId()
      requires root.Some?
      modifies this
      ensures root == Some(Extended(old(root.value), [ProfileIdElement()]))
    {
      AddChild(ProfileIdElement());
    }

    /** `AddChild`, tracking the children added since the root was `r0`. */
    method AddTracked(child: Node, ghost r0: Node, ghost added: seq<Node>)
      requires root == Some(Extended(r0, added))
      modifies this
      ensures root == Some(Extended(r0, added + [child]))
    {
      AddChild(child);
      ExtendedTwice(r0, added, [child]);
    }

    method AddInvoiceHeader(d: InvoiceData, today: Date)
      requires root.Some?
      modifies this
      ensures root == Some(Extended(old(root.value), HeaderElements(d, today)))
    {
      ghost var r0 := root.value;
      assert Extended(r0, []) == r0;
      var number := Leaf(ID, GetOr(d.invoiceNumber, ""));
      AddTracked(number, r0, []);
      assert [] + [number] == [number];
      var issued := Valued(IssueDate, IssueDateText(d.issueDate, today));
      AddTracked(issued, r0, [number]);
      ghost var added := [number] + [issued];
      if TruthyDate(d.dueDate) {
        AddTracked(Valued(DueDate, DateFieldText(d.dueDate.value)), r0, added);
      } else {
        assert added + [] == added;
      }
      added := added + DueDateElements(d);
      var typeCode := Leaf(InvoiceTypeCode, TypeCode(GetOr(d.invoiceType, "TAX_INVOICE")));
      AddTracked(typeCode, r0, added);
      var currency := Leaf(DocumentCurrencyCode, Currency(d));
      AddTracked(currency, r0, added + [typeCode]);
      var taxCurrency := Leaf(TaxCurrencyCode, "AED");
      AddTracked(taxCurrency, r0, added + [typeCode] + [currency]);
      AddOptionalHeader(d, r0, added + [typeCode] + [currency] + [taxCurrency]);
    }

    /** The note and the two references, each only when its field is truthy. */
    method AddOptionalHeader(d: InvoiceData, ghost r0: Node, ghost added: seq<Node>)
      requires root == Some(Extended(r0, added))
      modifies this
      ensures root == Some(Extended(r0, added + NoteElements(d) + OrderReferenceElements(d) + BillingReferenceElements(d)))
    {
      ghost var acc := added;
      if Truthy(d.invoiceNotes) {
        AddTracked(Leaf(Note, d.invoiceNotes.value), r0, acc);
      } else {
        assert acc + [] == acc;
      }
      acc := acc + NoteElements(d);
      if Truthy(d.referenceNumber) {
        var orderRef := Group(OrderReference, [Leaf(ID, d.referenceNumber.value)]);
        AddTracked(orderRef, r0, acc);
      } else {
        assert acc + [] == acc;
      }
      acc := acc + OrderReferenceElements(d);
      if Truthy(d.precedingInvoiceId) {
        var documentRef := Group(InvoiceDocumentReference, [Leaf(ID, d.precedingInvoiceId.value)]);
        AddTracked(Group(BillingReference, [documentRef]), r0, acc);
      } else {
        assert acc + [] == acc;
      }
    }

    method AddSupplierParty(d: InvoiceData)
      requires root.Some?
      modifies this
      ensures root == Some(Extended(old(root.value), [SupplierParty(d)]))
    {
      AddChild(SupplierParty(d));
    }

    method AddCustomerParty(d: InvoiceData)
      requires root.Some?
      modifies this
      ensures root == Some(Extended(old(root.value), [CustomerParty(d)]))
    {
      AddChild(CustomerParty(d));
    }

    method AddPaymentTerms(d: InvoiceData)
      requires root.Some?
      modifies this
      ensures root == Some(Extended(old(root.value), PaymentTermsElements(d)))
    {
      if Truthy(d.paymentTerms) {
        AddChild(Group(PaymentTerms, [Leaf(Note, d.paymentTerms.value)]));
      } else {
        assert Extended(root.value, []) == root.value;
      }
    }

    method AddTaxTotal(d: InvoiceData)
      requires root.Some?
      modifies this
      ensures root == Some(Extended(old(root.value), TaxTotalElements(d)))
    {
      ghost var r0 := root.value;
      assert Extended(r0, []) == r0;
      AddTracked(DocumentTaxTotal(d), r0, []);
      if Currency(d) != "AED" && TruthyNum(d.totalAmountAed) {
        var aed := Group(TaxTotal, [Amount(TaxAmount, GetOrInt(d.taxAmount, 0), "AED")]);
        AddTracked(aed, r0, [] + [DocumentTaxTotal(d)]);
        assert AedTaxTotal(d) == [aed];
        assert [] + [DocumentTaxTotal(d)] + [aed] == TaxTotalElements(d);
      } else {
        assert [] + [DocumentTaxTotal(d)] == TaxTotalElements(d);
      }
    }

    method AddMonetaryTotal(d: InvoiceData)
      requires root.Some?
      modifies this
      ensures root == Some(Extended(old(root.value), [MonetaryTotal(d)]))
    {
      AddChild(MonetaryTotal(d));
    }

    /** One `InvoiceLine` per item, appended in list order. */
    method AddInvoiceLines(items: seq<LineItem>)
      requires root.Some?
      modifies this
      ensures root == Some(Extended(old(root.value), InvoiceLines(items)))
    {
      ghost var r0 := root.value;
      assert Extended(r0, []) == r0;
      for i := 0 to |items|
        invariant root == Some(Extended(r0, InvoiceLines(items[..i])))
      {
        AddChild(InvoiceLineElement(items[i]));
        ExtendedTwice(r0, InvoiceLines(items[..i]), [InvoiceLineElement(items[i])]);
        assert items[..i + 1][..i] == items[..i];
      }
      assert items[..|items|] == items;
    }

    /** `generate_invoice_xml`: a fresh root, then each section in its fixed order. */
    method GenerateInvoiceXml(d: InvoiceData, items: seq<LineItem>, today: Date) returns (xml: Node)
      modifies this
      ensures root == Some(xml)
      ensures xml == InvoiceTree(d, items, today)
    {
      root := Some(InvoiceRoot());
      ghost var r0 := InvoiceRoot();
      assert Extended(r0, []) == r0;
      AddUblVersion();
      AddCustomizationId();
      AddProfileId();
      ExtendedTwice(r0, [UblVersion()], [CustomizationIdElement()]);
      ExtendedTwice(r0, [UblVersion()] + [CustomizationIdElement()], [ProfileIdElement()]);
      ghost var acc := Preamble();
      assert [UblVersion()] + [CustomizationIdElement()] + [ProfileIdElement()] == acc;
      AddInvoiceHeader(d, today);
      ExtendedTwice(r0, acc, HeaderElements(d, today));
      acc := acc + HeaderElements(d, today);
      AddSupplierParty(d);
      ExtendedTwice(r0, acc, [SupplierParty(d)]);
      acc := acc + [SupplierParty(d)];
      AddCustomerParty(d);
      ExtendedTwice(r0, acc, [CustomerParty(d)]);
      acc := acc + [CustomerParty(d)];
      AddPaymentTerms(d);
      ExtendedTwice(r0, acc, PaymentTermsElements(d));
      acc := acc + PaymentTermsElements(d);
      AddTaxTotal(d);
      ExtendedTwice(r0, acc, TaxTotalElements(d));
      acc := acc + TaxTotalElements(d);
      AddMonetaryTotal(d);
      ExtendedTwice(r0, acc, [MonetaryTotal(d)]);
      acc := acc + [MonetaryTotal(d)];
      AddInvoiceLines(items);
      ExtendedTwice(r0, acc, InvoiceLines(items));
      assert acc + InvoiceLines(items) == RootChildren(d, items, today);
      xml := root.value;
    }
  }

  // ---------------------------------------------------------------- properties of the tree

  /** Amounts, quantities and percentages carry exactly two decimals and read back to the same hundredths. */
  lemma TwoDecimalsReadBack(h: int)
    ensures var r := TextString(TwoDecimals(h));
      |r| >= 4 && r[|r| - 3] == '.' && ParseCents(r) == Some(h)
  {
    FormatCentsRoundTrip(h);
    if h < 0 {
      FormatUnsignedCentsShape(-h);
    } else {
      FormatUnsignedCentsShape(h);
    }
  }

  /** Dates are written `YYYY-MM-DD` and read back to the same date. */
  lemma YmdReadBack(x: Date)
    ensures ParseYmd(TextString(Ymd(x))) == Some(x)
  {
    FormatYmdRoundTrip(x);
  }

  lemma {:induction false} InvoiceLinesAt(items: seq<LineItem>)
    ensures forall i :: 0 <= i < |items| ==> InvoiceLines(items)[i] == InvoiceLineElement(items[i])
  {
    if items != [] {
      InvoiceLinesAt(items[..|items| - 1]);
    }
  }

  /** The tags of `n` invoice lines. */
  function InvoiceLineTags(n: nat): seq<Tag> {
    if n == 0 then [] else InvoiceLineTags(n - 1) + [Cac(InvoiceLine)]
  }

  lemma {:induction false} InvoiceLinesTags(items: seq<LineItem>)
    ensures Tags(InvoiceLines(items)) == InvoiceLineTags(|items|)
  {
    if items != [] {
      var init := items[..|items| - 1];
      InvoiceLinesTags(init);
      TagsConcat(InvoiceLines(init), [InvoiceLineElement(items[|items| - 1])]);
    }
  }

  /** The header's elements by tag: the fixed ones always, each optional one when its field is truthy. */
  function HeaderTags(d: InvoiceData): seq<Tag> {
    [Cbc(ID)] + [Cbc(IssueDate)] + OptTag(TruthyDate(d.dueDate), Cbc(DueDate))
    + [Cbc(InvoiceTypeCode)] + [Cbc(DocumentCurrencyCode)] + [Cbc(TaxCurrencyCode)]
    + OptTag(Truthy(d.invoiceNotes), Cbc(Note))
    + OptTag(Truthy(d.referenceNumber), Cac(OrderReference))
    + OptTag(Truthy(d.precedingInvoiceId), Cac(BillingReference))
  }

  /**
   * The order the root's children must come in: version and profile
   * identifiers, header, supplier, customer, payment terms when given, the
   * tax totals, the monetary totals, then one entry per invoice line.
   */
  function RootTags(d: InvoiceData, lines: nat): seq<Tag> {
    [Cbc(UBLVersionID)] + [Cbc(CustomizationID)] + [Cbc(ProfileID)] + HeaderTags(d)
    + [Cac(AccountingSupplierParty)] + [Cac(AccountingCustomerParty)]
    + OptTag(Truthy(d.paymentTerms), Cac(PaymentTerms))
    + ([Cac(TaxTotal)] + OptTag(Currency(d) != "AED" && TruthyNum(d.totalAmountAed), Cac(TaxTotal)))
    + [Cac(LegalMonetaryTotal)]
    + InvoiceLineTags(lines)
  }

  /** The tags of eight consecutive runs of elements. */
  lemma TagsOfEight(a: seq<Node>, b: seq<Node>, c: seq<Node>, e: seq<Node>, f: seq<Node>, g: seq<Node>, h: seq<Node>, k: seq<Node>)
    ensures Tags(a + b + c + e + f + g + h + k)
      == Tags(a) + Tags(b) + Tags(c) + Tags(e) + Tags(f) + Tags(g) + Tags(h) + Tags(k)
  {
    TagsConcat(a, b);
    TagsConcat(a + b, c);
    TagsConcat(a + b + c, e);
    TagsConcat(a + b + c + e, f);
    TagsConcat(a + b + c + e + f, g);
    TagsConcat(a + b + c + e + f + g, h);
    TagsConcat(a + b + c + e + f + g + h, k);
  }

  lemma HeaderElementTags(d: InvoiceData, today: Date)
    ensures Tags(HeaderElements(d, today)) == HeaderTags(d)
  {
    var front := [Leaf(ID, GetOr(d.invoiceNumber, ""))] + [Valued(IssueDate, IssueDateText(d.issueDate, today))];
    TagsConcat([Leaf(ID, GetOr(d.invoiceNumber, ""))], [Valued(IssueDate, IssueDateText(d.issueDate, today))]);
    TagsSingle(Leaf(ID, GetOr(d.invoiceNumber, "")));
    TagsSingle(Valued(IssueDate, IssueDateText(d.issueDate, today)));
    TagsOfEight(front, DueDateElements(d), [Leaf(InvoiceTypeCode, TypeCode(GetOr(d.invoiceType, "TAX_INVOICE")))],
      [Leaf(DocumentCurrencyCode, Currency(d))], [Leaf(TaxCurrencyCode, "AED")],
      NoteElements(d), OrderReferenceElements(d), BillingReferenceElements(d));
    TagsOfOptional(DueDateElements(d), TruthyDate(d.dueDate), Cbc(DueDate));
    TagsSingle(Leaf(InvoiceTypeCode, TypeCode(GetOr(d.invoiceType, "TAX_INVOICE"))));
    TagsSingle(Leaf(DocumentCurrencyCode, Currency(d)));
    TagsSingle(Leaf(TaxCurrencyCode, "AED"));
    TagsOfOptional(NoteElements(d), Truthy(d.invoiceNotes), Cbc(Note));
    TagsOfOptional(OrderReferenceElements(d), Truthy(d.referenceNumber), Cac(OrderReference));
    TagsOfOptional(BillingReferenceElements(d), Truthy(d.precedingInvoiceId), Cac(BillingReference));
  }

  /**
   * The root's children come in the order `RootTags` fixes, each optional
   * element present exactly when its field is truthy, and the invoice lines
   * close the document in the order of the input list.
   */
  lemma RootChildOrder(d: InvoiceData, items: seq<LineItem>, today: Date)
    ensures Tags(InvoiceTree(d, items, today).children) == RootTags(d, |items|)
  {
    TreeChildren(d, items, today);
    TagsOfEight(Preamble(), HeaderElements(d, today), [SupplierParty(d)], [CustomerParty(d)],
      PaymentTermsElements(d), TaxTotalElements(d), [MonetaryTotal(d)], InvoiceLines(items));
    PreambleTags();
    HeaderElementTags(d, today);
    TagsSingle(SupplierParty(d));
    TagsSingle(CustomerParty(d));
    TagsOfOptional(PaymentTermsElements(d), Truthy(d.paymentTerms), Cac(PaymentTerms));
    TaxTotalTags(d);
    TagsSingle(MonetaryTotal(d));
    InvoiceLinesTags(items);
  }

  /** The root starts empty, so its children are exactly the sections appended to it. */
  lemma TreeChildren(d: InvoiceData, items: seq<LineItem>, today: Date)
    ensures InvoiceTree(d, items, today).children == RootChildren(d, items, today)
  {
    assert InvoiceRoot().children == [];
    assert [] + RootChildren(d, items, today) == RootChildren(d, items, today);
  }

  lemma PreambleTags()
    ensures Tags(Preamble()) == [Cbc(UBLVersionID)] + [Cbc(CustomizationID)] + [Cbc(ProfileID)]
  {
    TagsSingle(UblVersion());
    TagsSingle(CustomizationIdElement());
    TagsSingle(ProfileIdElement());
    TagsConcat([UblVersion()], [CustomizationIdElement()]);
    TagsConcat([UblVersion()] + [CustomizationIdElement()], [ProfileIdElement()]);
  }

  lemma TaxTotalTags(d: InvoiceData)
    ensures Tags(TaxTotalElements(d))
      == [Cac(TaxTotal)] + OptTag(Currency(d) != "AED" && TruthyNum(d.totalAmountAed), Cac(TaxTotal))
  {
    TagsConcat([DocumentTaxTotal(d)], AedTaxTotal(d));
    TagsSingle(DocumentTaxTotal(d));
    TagsOfOptional(AedTaxTotal(d), Currency(d) != "AED" && TruthyNum(d.totalAmountAed), Cac(TaxTotal));
  }

  /** The invoice lines close the document, one per item in the order of the input list. */
  lemma RootLinesLast(d: InvoiceData, items: seq<LineItem>, today: Date)
    ensures var kids := InvoiceTree(d, items, today).children;
      |kids| >= |items| && kids[|kids| - |items|..] == InvoiceLines(items)
  {
    var front := Preamble() + HeaderElements(d, today) + [SupplierParty(d)] + [CustomerParty(d)]
      + PaymentTermsElements(d) + TaxTotalElements(d) + [MonetaryTotal(d)];
    var kids := InvoiceTree(d, items, today).children;
    assert kids == front + InvoiceLines(items);
  }

  /** Looking a tag up in the header, piece by piece. */
  lemma HeaderFind(d: InvoiceData, today: Date, u: Tag)
    requires u != Cbc(DueDate)
    ensures Find(HeaderElements(d, today), u) ==
      FirstFound(FirstFound(FirstFound(FirstFound(FirstFound(
        Find([Leaf(ID, GetOr(d.invoiceNumber, ""))], u),
        Find([Valued(IssueDate, IssueDateText(d.issueDate, today))], u)),
        Find([Leaf(InvoiceTypeCode, TypeCode(GetOr(d.invoiceType, "TAX_INVOICE")))], u)),
        Find([Leaf(DocumentCurrencyCode, Currency(d))], u)),
        Find([Leaf(TaxCurrencyCode, "AED")], u)),
        Find(NoteElements(d) + OrderReferenceElements(d) + BillingReferenceElements(d), u))
  {
    var front := HeaderFront(d, today);
    var note, order, billing := NoteElements(d), OrderReferenceElements(d), BillingReferenceElements(d);
    assert HeaderElements(d, today) == front + note + order + billing;
    HeaderFrontFind(d, today, u);
    FindConcat(front, note, u);
    FindConcat(front + note, order, u);
    FindConcat(front + note + order, billing, u);
    FindConcat(note, order, u);
    FindConcat(note + order, billing, u);
  }

  /** The header up to its optional references. */
  function HeaderFront(d: InvoiceData, today: Date): seq<Node> {
    [Leaf(ID, GetOr(d.invoiceNumber, ""))] + [Valued(IssueDate, IssueDateText(d.issueDate, today))]
    + DueDateElements(d)
    + [Leaf(InvoiceTypeCode, TypeCode(GetOr(d.invoiceType, "TAX_INVOICE")))]
    + [Leaf(DocumentCurrencyCode, Currency(d))]
    + [Leaf(TaxCurrencyCode, "AED")]
  }

  lemma HeaderFrontFind(d: InvoiceData, today: Date, u: Tag)
    requires u != Cbc(DueDate)
    ensures Find(HeaderFront(d, today), u) ==
      FirstFound(FirstFound(FirstFound(FirstFound(
        Find([Leaf(ID, GetOr(d.invoiceNumber, ""))], u),
        Find([Valued(IssueDate, IssueDateText(d.issueDate, today))], u)),
        Find([Leaf(InvoiceTypeCode, TypeCode(GetOr(d.invoiceType, "TAX_INVOICE")))], u)),
        Find([Leaf(DocumentCurrencyCode, Currency(d))], u)),
        Find([Leaf(TaxCurrencyCode, "AED")], u))
  {
    FindAbsentOptional(DueDateElements(d), TruthyDate(d.dueDate), Cbc(DueDate), u);
    FindPastGap(Leaf(ID, GetOr(d.invoiceNumber, "")), Valued(IssueDate, IssueDateText(d.issueDate, today)),
      DueDateElements(d), Leaf(InvoiceTypeCode, TypeCode(GetOr(d.invoiceType, "TAX_INVOICE"))),
      Leaf(DocumentCurrencyCode, Currency(d)), Leaf(TaxCurrencyCode, "AED"), u);
  }

  /** Looking up in five single elements with a gap that holds no match after the second. */
  lemma FindPastGap(a: Node, b: Node, gap: seq<Node>, c: Node, e: Node, f: Node, u: Tag)
    requires Find(gap, u).None?
    ensures Find([a] + [b] + gap + [c] + [e] + [f], u) ==
      FirstFound(FirstFound(FirstFound(FirstFound(Find([a], u), Find([b], u)), Find([c], u)), Find([e], u)), Find([f], u))
  {
    FindConcat([a], [b], u);
    FindConcat([a] + [b], gap, u);
    FindConcat([a] + [b] + gap, [c], u);
    FindConcat([a] + [b] + gap + [c], [e], u);
    FindConcat([a] + [b] + gap + [c] + [e], [f], u);
  }

  /** No element of the three identifiers in front of the header has a header tag. */
  lemma PreambleFind(u: Tag)
    requires u != Cbc(UBLVersionID) && u != Cbc(CustomizationID) && u != Cbc(ProfileID)
    ensures Find(Preamble(), u).None?
  {
    FindConcat([UblVersion()], [CustomizationIdElement()], u);
    FindConcat([UblVersion()] + [CustomizationIdElement()], [ProfileIdElement()], u);
  }

  /** An element of the header is found in the whole document where the header puts it. */
  lemma FindKeptInRoot(d: InvoiceData, items: seq<LineItem>, today: Date, t: Tag)
    requires Find(Preamble(), t).None? && Find(HeaderElements(d, today), t).Some?
    ensures Find(InvoiceTree(d, items, today).children, t) == Find(HeaderElements(d, today), t)
  {
    TreeChildren(d, items, today);
    FindInSecond(Preamble(), HeaderElements(d, today), [SupplierParty(d)], [CustomerParty(d)],
      PaymentTermsElements(d), TaxTotalElements(d), [MonetaryTotal(d)], InvoiceLines(items), t);
  }

  /** A match in the second of eight runs, none in the first, is the first match overall. */
  lemma FindInSecond(a: seq<Node>, b: seq<Node>, c: seq<Node>, e: seq<Node>, f: seq<Node>, g: seq<Node>, h: seq<Node>, k: seq<Node>, t: Tag)
    requires Find(a, t).None? && Find(b, t).Some?
    ensures Find(a + b + c + e + f + g + h + k, t) == Find(b, t)
  {
    FindConcat(a, b, t);
    FindConcat(a + b, c, t);
    FindConcat(a + b + c, e, t);
    FindConcat(a + b + c + e, f, t);
    FindConcat(a + b + c + e + f, g, t);
    FindConcat(a + b + c + e + f + g, h, t);
    FindConcat(a + b + c + e + f + g + h, k, t);
  }

  /**
   * `InvoiceTypeCode` is 381 exactly when the upper-cased `invoice_type`
   * (TAX_INVOICE when absent) contains CREDIT and 380 otherwise, and
   * `TaxCurrencyCode` is always AED, whatever the document currency.
   */
  lemma HeaderCodes(d: InvoiceData, items: seq<LineItem>, today: Date)
    ensures var kids := InvoiceTree(d, items, today).children;
      Find(kids, Cbc(InvoiceTypeCode)) == Some(Leaf(InvoiceTypeCode,
        if Contains(Upper(GetOr(d.invoiceType, "TAX_INVOICE")), "CREDIT") then "381" else "380"))
      && Find(kids, Cbc(TaxCurrencyCode)) == Some(Leaf(TaxCurrencyCode, "AED"))
  {
    TypeCodeFound(d, items, today);
    TaxCurrencyFound(d, items, today);
  }

  lemma TypeCodeFound(d: InvoiceData, items: seq<LineItem>, today: Date)
    ensures Find(InvoiceTree(d, items, today).children, Cbc(InvoiceTypeCode))
      == Some(Leaf(InvoiceTypeCode, TypeCode(GetOr(d.invoiceType, "TAX_INVOICE"))))
  {
    HeaderFind(d, today, Cbc(InvoiceTypeCode));
    PreambleFind(Cbc(InvoiceTypeCode));
    FindKeptInRoot(d, items, today, Cbc(InvoiceTypeCode));
  }

  lemma TaxCurrencyFound(d: InvoiceData, items: seq<LineItem>, today: Date)
    ensures Find(InvoiceTree(d, items, today).children, Cbc(TaxCurrencyCode)) == Some(Leaf(TaxCurrencyCode, "AED"))
  {
    HeaderFind(d, today, Cbc(TaxCurrencyCode));
    PreambleFind(Cbc(TaxCurrencyCode));
    FindKeptInRoot(d, items, today, Cbc(TaxCurrencyCode));
  }

  /**
   * The clock is read only for a missing issue date: with a truthy issue
   * date the tree does not depend on `today`; without one the issue date is
   * today, written so that it reads back to today.
   */
  lemma IssueDateFallback(d: InvoiceData, items: seq<LineItem>, today: Date, other: Date)
    ensures TruthyDate(d.issueDate) ==> InvoiceTree(d, items, today) == InvoiceTree(d, items, other)
    ensures !TruthyDate(d.issueDate) ==>
      Find(InvoiceTree(d, items, today).children, Cbc(IssueDate)) == Some(Valued(IssueDate, Ymd(today)))
      && ParseYmd(TextString(Ymd(today))) == Some(today)
  {
    if TruthyDate(d.issueDate) {
      assert HeaderElements(d, today) == HeaderElements(d, other);
      assert RootChildren(d, items, today) == RootChildren(d, items, other);
    } else {
      IssueDateIsToday(d, items, today);
      YmdReadBack(today);
    }
  }

  lemma IssueDateIsToday(d: InvoiceData, items: seq<LineItem>, today: Date)
    requires !TruthyDate(d.issueDate)
    ensures Find(InvoiceTree(d, items, today).children, Cbc(IssueDate)) == Some(Valued(IssueDate, Ymd(today)))
  {
    HeaderFind(d, today, Cbc(IssueDate));
    assert Find([Leaf(ID, GetOr(d.invoiceNumber, ""))], Cbc(IssueDate)).None?;
    assert Find([Valued(IssueDate, IssueDateText(d.issueDate, today))], Cbc(IssueDate))
      == Some(Valued(IssueDate, Ymd(today)));
    PreambleFind(Cbc(IssueDate));
    FindKeptInRoot(d, items, today, Cbc(IssueDate));
  }

  /**
   * The supplier always carries its TRN identification and its VAT tax
   * scheme, and a postal address exactly when its street or city is truthy.
   */
  lemma SupplierPartyElements(d: InvoiceData)
    ensures Cac(PartyIdentification) in Tags(SupplierPartyContents(d))
    ensures Cac(PartyTaxScheme) in Tags(SupplierPartyContents(d))
    ensures Cac(PostalAddress) in Tags(SupplierPartyContents(d)) <==> Truthy(d.supplierAddress) || Truthy(d.supplierCity)
  {
    SupplierTags(d);
  }

  /**
   * The customer carries an identification exactly when `customer_trn` is
   * truthy, and a postal address exactly when its street or city is truthy.
   */
  lemma CustomerPartyElements(d: InvoiceData)
    ensures Cac(PartyIdentification) in Tags(CustomerPartyContents(d)) <==> Truthy(d.customerTrn)
    ensures Cac(PostalAddress) in Tags(CustomerPartyContents(d)) <==> Truthy(d.customerAddress) || Truthy(d.customerCity)
  {
    CustomerTags(d);
    CustomerTagsMembership(Truthy(d.customerPeppolId), Truthy(d.customerTrn),
      Truthy(d.customerAddress) || Truthy(d.customerCity), Truthy(d.customerEmail));
  }

  lemma CustomerTagsMembership(endpoint: bool, trn: bool, address: bool, email: bool)
    ensures var ts := OptTag(endpoint, Cbc(EndpointID)) + OptTag(trn, Cac(PartyIdentification)) + [Cac(PartyName)]
      + OptTag(address, Cac(PostalAddress)) + [Cac(PartyLegalEntity)] + OptTag(email, Cac(Contact));
      (Cac(PartyIdentification) in ts <==> trn) && (Cac(PostalAddress) in ts <==> address)
  {
    var front := OptTag(endpoint, Cbc(EndpointID)) + OptTag(trn, Cac(PartyIdentification)) + [Cac(PartyName)];
    var back := [Cac(PartyLegalEntity)] + OptTag(email, Cac(Contact));
    assert Cac(PostalAddress) !in front && Cac(PostalAddress) !in back;
    assert Cac(PartyIdentification) in front <==> trn;
    assert Cac(PartyIdentification) !in OptTag(address, Cac(PostalAddress)) + back;
  }

  lemma SupplierTags(d: InvoiceData)
    ensures Tags(SupplierPartyContents(d)) ==
      OptTag(Truthy(d.supplierPeppolId), Cbc(EndpointID)) + [Cac(PartyIdentification)] + [Cac(PartyName)]
      + OptTag(Truthy(d.supplierAddress) || Truthy(d.supplierCity), Cac(PostalAddress))
      + [Cac(PartyTaxScheme)] + [Cac(PartyLegalEntity)]
  {
    var a := Endpoint(d.supplierPeppolId);
    TagsOfOptional(a, Truthy(d.supplierPeppolId), Cbc(EndpointID));
    var identification := [TrnIdentification(GetOr(d.supplierTrn, ""))];
    TagsConcat(a, identification);
    TagsSingle(TrnIdentification(GetOr(d.supplierTrn, "")));
    a := a + identification;
    var name := [Group(PartyName, [Leaf(Name, GetOr(d.supplierName, ""))])];
    TagsConcat(a, name);
    TagsSingle(name[0]);
    a := a + name;
    var address := PostalAddressElements(d.supplierAddress, d.supplierCity, d.supplierCountry);
    TagsOfOptional(address, Truthy(d.supplierAddress) || Truthy(d.supplierCity), Cac(PostalAddress));
    TagsConcat(a, address);
    a := a + address;
    var scheme := [Group(PartyTaxScheme, [Leaf(CompanyID, GetOr(d.supplierTrn, "")), VatTaxScheme])];
    TagsConcat(a, scheme);
    TagsSingle(Group(PartyTaxScheme, [Leaf(CompanyID, GetOr(d.supplierTrn, "")), VatTaxScheme]));
    a := a + scheme;
    TagsConcat(a, [Group(PartyLegalEntity, [Leaf(RegistrationName, GetOr(d.supplierName, ""))])]);
    TagsSingle(Group(PartyLegalEntity, [Leaf(RegistrationName, GetOr(d.supplierName, ""))]));
  }

  lemma CustomerTags(d: InvoiceData)
    ensures Tags(CustomerPartyContents(d)) ==
      OptTag(Truthy(d.customerPeppolId), Cbc(EndpointID))
      + OptTag(Truthy(d.customerTrn), Cac(PartyIdentification)) + [Cac(PartyName)]
      + OptTag(Truthy(d.customerAddress) || Truthy(d.customerCity), Cac(PostalAddress))
      + [Cac(PartyLegalEntity)] + OptTag(Truthy(d.customerEmail), Cac(Contact))
  {
    var a := Endpoint(d.customerPeppolId);
    TagsOfOptional(a, Truthy(d.customerPeppolId), Cbc(EndpointID));
    TagsOfOptional(CustomerIdentification(d), Truthy(d.customerTrn), Cac(PartyIdentification));
    TagsConcat(a, CustomerIdentification(d));
    a := a + CustomerIdentification(d);
    var name := [Group(PartyName, [Leaf(Name, GetOr(d.customerName, ""))])];
    TagsConcat(a, name);
    TagsSingle(name[0]);
    a := a + name;
    var address := PostalAddressElements(d.customerAddress, d.customerCity, d.customerCountry);
    TagsOfOptional(address, Truthy(d.customerAddress) || Truthy(d.customerCity), Cac(PostalAddress));
    TagsConcat(a, address);
    a := a + address;
    var legal := [Group(PartyLegalEntity, [Leaf(RegistrationName, GetOr(d.customerName, ""))])];
    TagsConcat(a, legal);
    TagsSingle(legal[0]);
    a := a + legal;
    TagsConcat(a, ContactElements(d));
    TagsOfOptional(ContactElements(d), Truthy(d.customerEmail), Cac(Contact));
  }

  /** A postal address without a country names AE. */
  lemma CountryDefaultsToAe(street: Option<string>, city: Option<string>)
    requires Truthy(street) || Truthy(city)
    ensures var a := PostalAddressElements(street, city, None);
      |a| == 1 && a[0].children[|a[0].children| - 1] == Group(Country, [Leaf(IdentificationCode, "AE")])
  {
  }

  /**
   * `LineExtensionAmount` and `TaxExclusiveAmount` both read back to the
   * subtotal, `TaxInclusiveAmount` to the total, and `PayableAmount` to
   * `amount_due` when present and to the total otherwise.
   */
  lemma MonetaryAmounts(d: InvoiceData)
    ensures var m := MonetaryTotal(d).children;
      |m| == 4 && m[0].tag == Cbc(LineExtensionAmount) && m[1].tag == Cbc(TaxExclusiveAmount)
      && m[2].tag == Cbc(TaxInclusiveAmount) && m[3].tag == Cbc(PayableAmount)
      && m[0].text == m[1].text
      && ParseCents(TextString(m[0].text.value)) == Some(GetOrInt(d.subtotalAmount, 0))
      && ParseCents(TextString(m[2].text.value)) == Some(GetOrInt(d.totalAmount, 0))
      && ParseCents(TextString(m[3].text.value)) ==
         Some(if d.amountDue.Some? then d.amountDue.value else GetOrInt(d.totalAmount, 0))
  {
    TwoDecimalsReadBack(GetOrInt(d.subtotalAmount, 0));
    TwoDecimalsReadBack(GetOrInt(d.totalAmount, 0));
    TwoDecimalsReadBack(Payable(d));
  }

  /**
   * There is one tax total in the document currency, and a second one in
   * AED exactly when the document currency is not AED and `total_amount_aed`
   * is truthy.
   */
  lemma TaxTotals(d: InvoiceData)
    ensures var t := TaxTotalElements(d);
      (|t| == 2 <==> Currency(d) != "AED" && TruthyNum(d.totalAmountAed))
      && (|t| == 1 || |t| == 2)
      && t[0].tag == Cac(TaxTotal) && t[0].children[0].attrs[CurrencyID] == Currency(d)
      && (|t| == 2 ==> t[1].tag == Cac(TaxTotal) && t[1].children[0].attrs[CurrencyID] == "AED")
  {
  }

  // ---------------------------------------------------------------- validation

  /** The eight required keys, in the order they are checked. */
  datatype Field =
    | InvoiceNumberKey | IssueDateKey | SupplierTrnKey | SupplierNameKey
    | CustomerNameKey | SubtotalAmountKey | TaxAmountKey | TotalAmountKey

  const RequiredFields: seq<Field> := [InvoiceNumberKey, IssueDateKey, SupplierTrnKey, SupplierNameKey,
    CustomerNameKey, SubtotalAmountKey, TaxAmountKey, TotalAmountKey]

  function FieldKey(f: Field): string {
    match f
    case InvoiceNumberKey => "invoice_number"
    case IssueDateKey => "issue_date"
    case SupplierTrnKey => "supplier_trn"
    case SupplierNameKey => "supplier_name"
    case CustomerNameKey => "customer_name"
    case SubtotalAmountKey => "subtotal_amount"
    case TaxAmountKey => "tax_amount"
    case TotalAmountKey => "total_amount"
  }

  /** `invoice_data.get(field)` is truthy; a zero amount is not. */
  predicate FieldPresent(d: InvoiceData, f: Field) {
    match f
    case InvoiceNumberKey => Truthy(d.invoiceNumber)
    case IssueDateKey => TruthyDate(d.issueDate)
    case SupplierTrnKey => Truthy(d.supplierTrn)
    case SupplierNameKey => Truthy(d.supplierName)
    case CustomerNameKey => Truthy(d.customerName)
    case SubtotalAmountKey => TruthyNum(d.subtotalAmount)
    case TaxAmountKey => TruthyNum(d.taxAmount)
    case TotalAmountKey => TruthyNum(d.totalAmount)
  }

  function MissingMessage(f: Field): string {
    "Missing required field: " + FieldKey(f)
  }

  /** One message per falsy field of `fs`, in order. */
  function MissingFieldMessages(d: InvoiceData, fs: seq<Field>): seq<string> {
    if fs == [] then [] else
      var last := fs[|fs| - 1];
      MissingFieldMessages(d, fs[..|fs| - 1]) + (if FieldPresent(d, last) then [] else [MissingMessage(last)])
  }

  /** The space-stripped supplier TRN is fifteen digits. */
  predicate TrnWellFormed(trn: string) {
    var t := RemoveSpaces(trn);
    AllDigits(t) && |t| == 15
  }

  function TrnErrors(d: InvoiceData): seq<string> {
    if Truthy(d.supplierTrn) && !TrnWellFormed(d.supplierTrn.value) then ["Supplier TRN must be 15 digits"] else []
  }

  /** |total - (subtotal + tax)| in cents, absent amounts counting as 0. */
  function Discrepancy(d: InvoiceData): nat {
    var diff := GetOrInt(d.totalAmount, 0) - (GetOrInt(d.subtotalAmount, 0) + GetOrInt(d.taxAmount, 0));
    if diff < 0 then -diff else diff
  }

  function MismatchErrors(d: InvoiceData): seq<string> {
    if Discrepancy(d) > 1 then
      ["Total amount mismatch: " + FloatReprOfCents(GetOrInt(d.totalAmount, 0)) + " != "
       + FloatReprOfCents(GetOrInt(d.subtotalAmount, 0)) + " + " + FloatReprOfCents(GetOrInt(d.taxAmount, 0))]
    else []
  }

  /** Every error `validate_invoice_data` reports, in the order it reports them. */
  function InvoiceDataErrors(d: InvoiceData): seq<string> {
    MissingFieldMessages(d, RequiredFields) + TrnErrors(d) + MismatchErrors(d)
  }

  /** `validate_invoice_data`: checks every rule and reports validity with the collected errors. */
  method ValidateInvoiceData(d: InvoiceData) returns (isValid: bool, errors: seq<string>)
    ensures errors == InvoiceDataErrors(d)
    ensures isValid <==> errors == []
  {
    errors := [];
    for i := 0 to |RequiredFields|
      invariant errors == MissingFieldMessages(d, RequiredFields[..i])
    {
      assert RequiredFields[..i + 1][..i] == RequiredFields[..i];
      if !FieldPresent(d, RequiredFields[i]) {
        errors := errors + [MissingMessage(RequiredFields[i])];
      }
    }
    assert RequiredFields[..|RequiredFields|] == RequiredFields;
    errors := CheckSupplierTrn(d, errors);
    errors := CheckTotals(d, errors);
    isValid := |errors| == 0;
  }

  /** Appends the TRN error when a present supplier TRN is not fifteen digits once spaces are removed. */
  method CheckSupplierTrn(d: InvoiceData, errors: seq<string>) returns (r: seq<string>)
    ensures r == errors + TrnErrors(d)
  {
    r := errors;
    if Truthy(d.supplierTrn) {
      var trn := RemoveSpaces(d.supplierTrn.value);
      if !AllDigits(trn) || |trn| != 15 {
        r := r + ["Supplier TRN must be 15 digits"];
      }
    }
    assert r == errors + TrnErrors(d);
  }

  /** Appends the mismatch error when the total is more than one cent away from subtotal plus tax. */
  method CheckTotals(d: InvoiceData, errors: seq<string>) returns (r: seq<string>)
    ensures r == errors + MismatchErrors(d)
  {
    var subtotal := GetOrInt(d.subtotalAmount, 0);
    var tax := GetOrInt(d.taxAmount, 0);
    var total := GetOrInt(d.totalAmount, 0);
    var diff := total - (subtotal + tax);
    r := errors;
    if (if diff < 0 then -diff else diff) > 1 {
      r := r + ["Total amount mismatch: " + FloatReprOfCents(total) + " != "
        + FloatReprOfCents(subtotal) + " + " + FloatReprOfCents(tax)];
    }
    assert r == errors + MismatchErrors(d);
  }

  lemma {:induction false} MissingEmptyIff(d: InvoiceData, fs: seq<Field>)
    ensures MissingFieldMessages(d, fs) == [] <==> forall i :: 0 <= i < |fs| ==> FieldPresent(d, fs[i])
  {
    if fs != [] {
      MissingEmptyIff(d, fs[..|fs| - 1]);
    }
  }

  lemma {:induction false} MissingReported(d: InvoiceData, fs: seq<Field>, i: nat)
    requires i < |fs| && !FieldPresent(d, fs[i])
    ensures MissingMessage(fs[i]) in MissingFieldMessages(d, fs)
  {
    if i < |fs| - 1 {
      MissingReported(d, fs[..|fs| - 1], i);
    }
  }

  /**
   * The input is valid exactly when all eight required fields are truthy,
   * a present supplier TRN is fifteen digits once spaces are removed, and the
   * total is within one cent of subtotal plus tax.
   */
  lemma ValidIff(d: InvoiceData)
    ensures InvoiceDataErrors(d) == [] <==>
      (forall f :: f in RequiredFields ==> FieldPresent(d, f))
      && Truthy(d.supplierTrn) && TrnWellFormed(d.supplierTrn.value) && Discrepancy(d) <= 1
  {
    MissingEmptyIff(d, RequiredFields);
    if forall f :: f in RequiredFields ==> FieldPresent(d, f) {
      assert FieldPresent(d, RequiredFields[2]);
    }
    if InvoiceDataErrors(d) == [] {
      assert FieldPresent(d, RequiredFields[2]);
    }
  }

  /** A zero tax amount is reported as a missing field, even on a zero-rated invoice. */
  lemma ZeroTaxIsMissing(d: InvoiceData)
    requires d.taxAmount == Some(0)
    ensures "Missing required field: tax_amount" in InvoiceDataErrors(d)
  {
    MissingReported(d, RequiredFields, 6);
    assert MissingMessage(RequiredFields[6]) == "Missing required field: tax_amount";
  }

  // ---------------------------------------------------------------- serialisation

  /**
   * XML 1.0's `Char` production: tab, line feed, carriage return and every
   * character from U+0020 on, except U+FFFE and U+FFFF (surrogates are no
   * `char` values).
   */
  predicate XmlChar(c: char) {
    c == '\t' || c == '\n' || c == '\r'
    || ('\U{20}' <= c <= '\U{D7FF}') || ('\U{E000}' <= c <= '\U{FFFD}') || '\U{10000}' <= c
  }

  predicate XmlText(s: string) {
    forall i :: 0 <= i < |s| ==> XmlChar(s[i])
  }

  /**
   * The tree survives being written out and parsed back: ElementTree writes
   * control characters unescaped, and the parser rejects any character
   * outside `Char` in a text or an attribute value.
   */
  predicate Serialisable(n: Node)
    decreases n
  {
    (n.text.Some? ==> XmlText(TextString(n.text.value)))
    && (forall a :: a in n.attrs ==> XmlText(n.attrs[a]))
    && (forall k :: k in n.children ==> Serialisable(k))
  }

  lemma DigitsXml(s: string)
    requires AllDigits(s)
    ensures XmlText(s)
  {
    forall i | 0 <= i < |s| ensures XmlChar(s[i]) { assert IsDigit(s[i]); }
  }

  lemma {:induction false} ConcatXml(a: string, b: string)
    requires XmlText(a) && XmlText(b)
    ensures XmlText(a + b)
  {
    forall i | 0 <= i < |a + b| ensures XmlChar((a + b)[i]) {
      if i < |a| { assert (a + b)[i] == a[i]; } else { assert (a + b)[i] == b[i - |a|]; }
    }
  }

  lemma UnsignedCentsXml(a: nat)
    ensures XmlText(FormatUnsignedCents(a))
  {
    var d1, d2 := DigitChar((a % 100) / 10), DigitChar(a % 10);
    DigitsXml(NatToString(a / 100));
    DigitsXml([d1, d2]);
    ConcatXml(NatToString(a / 100), ".");
    ConcatXml(NatToString(a / 100) + ".", [d1, d2]);
  }

  /** The texts the generator formats itself (amounts, counts, dates) never stop the parser. */
  lemma FormattedTextXml(t: Text)
    requires !t.Plain?
    ensures XmlText(TextString(t))
  {
    match t
    case TwoDecimals(h) =>
      if h < 0 {
        UnsignedCentsXml(-h);
        ConcatXml("-", FormatUnsignedCents(-h));
      } else {
        UnsignedCentsXml(h);
      }
    case Whole(n) =>
      if n < 0 {
        DigitsXml(NatToString(-n));
        ConcatXml("-", NatToString(-n));
      } else {
        DigitsXml(NatToString(n));
      }
    case Ymd(x) =>
      var r := FormatYmd(x);
      forall i | 0 <= i < |r| ensures XmlChar(r[i]) {
        if i < 4 { assert r[i] == r[..4][i]; }
        else if 5 <= i < 7 { assert r[i] == r[5..7][i - 5]; }
        else if 8 <= i { assert r[i] == r[8..][i - 8]; }
      }
  }

  /** A supplier name holding a character outside `Char` makes the whole tree unserialisable. */
  lemma ControlCharacterInSupplierName(d: InvoiceData, items: seq<LineItem>, today: Date)
    requires d.supplierName.Some? && !XmlText(d.supplierName.value)
    ensures !Serialisable(InvoiceTree(d, items, today))
  {
    var name := Leaf(Name, GetOr(d.supplierName, ""));
    assert !Serialisable(name);
    var partyName := Group(PartyName, [name]);
    assert name in partyName.children;
    var contents := SupplierPartyContents(d);
    assert partyName in contents;
    var party := Group(Party, contents);
    assert !Serialisable(party);
    assert party in SupplierParty(d).children;
    TreeChildren(d, items, today);
    assert SupplierParty(d) in RootChildren(d, items, today);
  }

  // ---------------------------------------------------------------- the entry point

  /** `(success, xml, errors)` as the module-level function returns it. */
  datatype XmlOutcome = XmlOutcome(success: bool, xml: Option<Node>, errors: Option<seq<string>>)

  /**
   * Module-level `generate_invoice_xml`: nothing is built when validation
   * fails; a tree the parser rejects on pretty-printing becomes a generation
   * error (`parseError` is the parser's message, which this model does not
   * reproduce); otherwise the full tree is returned.
   */
  method GenerateInvoiceXml(d: InvoiceData, items: seq<LineItem>, today: Date, parseError: string) returns (r: XmlOutcome)
    ensures InvoiceDataErrors(d) != [] ==> r == XmlOutcome(false, None, Some(InvoiceDataErrors(d)))
    ensures InvoiceDataErrors(d) == [] && Serialisable(InvoiceTree(d, items, today)) ==>
      r == XmlOutcome(true, Some(InvoiceTree(d, items, today)), None)
    ensures InvoiceDataErrors(d) == [] && !Serialisable(InvoiceTree(d, items, today)) ==>
      r == XmlOutcome(false, None, Some(["XML generation error: " + parseError]))
  {
    var generator := new UblXmlGenerator();
    var isValid, errors := ValidateInvoiceData(d);
    if !isValid {
      return XmlOutcome(false, None, Some(errors));
    }
    var xml := generator.GenerateInvoiceXml(d, items, today);
    if !Serialisable(xml) {
      return XmlOutcome(false, None, Some(["XML generation error: " + parseError]));
    }
    r := XmlOutcome(true, Some(xml), None);
  }
}
