# Beam e-invoicing core, modelled in Dafny

Beam is a UAE e-invoicing backend. A company registers through a four-step
wizard. It then issues invoices that carry UAE VAT (tax codes SR, ZR, ES, RC
and OP, with 5 % standard rate). Invoices are rendered as OASIS UBL 2.1
documents with the PEPPOL BIS Billing 3.0 / EN 16931 identifiers of the
PINT-AE profile. They are hash-chained and signed, then sent over the PEPPOL
network through a provider adapter. Around this pipeline sit:

- an e-mail one-time-password store with backup codes;
- bulk import of invoices and vendors from spreadsheets;
- the FTA Audit File (FAF) export;
- a small error taxonomy with HTTP statuses.

This project models that core. There is one Dafny module per source file,
plus `Common` for shared helpers:

| Module | What it models |
|---|---|
| `Common` | Option/Result; ASCII string helpers; `Decimal` half-up rounding to cents; two-decimal formatting; `YYYY-MM-DD` dates; lower-case hex |
| `Exceptions` | the exception hierarchy, its inherited `http_status`, `to_dict` and the HTTP response |
| `Vat` | the tax-code table, exclusive and inclusive VAT, line and invoice aggregation, TRN checks and formatting, classification and labels, the VAT return |
| `UblTemplate` | the string-template UBL renderer, XML escaping, the document fingerprint, and the PINT-AE validator |
| `UblTree` | the element-tree UBL generator as a class whose root is rebuilt child by child, its validator, and the module-level wrapper |
| `Crypto` | hashes, the canonical chain text, the chain check, signing and its counter, certificate windows, constructor modes, the environment key check, and the module singleton |
| `Peppol` | provider statuses, the factory, the HTTP-code decisions of the Tradeshift and Basware adapters, and the in-memory mock provider |
| `Mfa` | single-use backup codes, their display, and the e-mail OTP store with attempts, expiry and a sliding one-hour send limit |
| `BulkImport` | the invoice and vendor row rules and the file-level error accumulation |
| `FtaAudit` | tax-code inference, type mapping, the sales and purchase rows, the CSV statistics and the TXT layout |
| `Registration` | the wizard's progress flags, document and plan preconditions, finalisation, and the admin approval and rejection |

**Money.** Money is whole cents (`int`). The model computes `Decimal`
arithmetic exactly, as rationals (`real`), and
`quantize(Decimal('0.01'), ROUND_HALF_UP)` is `RoundHalfUpCents`.

**Outside inputs.** The following become parameters:

- wall-clock readings (`now` in seconds, `today` as a date);
- random codes and generated identifiers;
- the cryptographic primitives: SHA-256 and SHA-512 (FIPS 180-4), RSASSA-PSS (RFC 8017, section 8.1), Base64 (RFC 4648, section 4), and PEM/X.509 loading. They are bundled in a `Primitives` record of functions;
- the outcomes of HTTP calls;
- spreadsheet reading and JSON decoding.

**Dictionaries.** A dictionary key read with `.get` is an `Option`; `None`
means the key is absent.

**Places where the code is followed over its own documentation:**

- `Vat.IsValidTrn` follows `re.match(r'^\d{15}$')`. Python's `$` also matches before one trailing newline, so fifteen digits plus `"\n"` pass (`Vat.TrnTrailingNewline`).
- The PINT-AE validator checks only the length of a TRN, not that it is digits (`UblTemplate.TrnCheckedByLengthOnly`).
- The element-tree validator reports a zero `tax_amount` as a missing field (`UblTree.ZeroTaxIsMissing`).
- The chain check takes `prev_invoice_hash` from the invoice it is given; nothing looks up a stored predecessor.
- The wizard's `current_step` follows the last step completed, not the furthest one (`Registration.RedoingStepOneRewindsCurrentStep`).
- Approval does not require a finished registration.

## Model

| member | source | states |
|---|---|---|
| Exceptions.Parent | utils/exceptions.py:8-71 | every class but the root `InvoLinksException` has a base class, one level up the hierarchy |
| Exceptions.HttpStatus | utils/exceptions.py:24-71 | `http_status` is the class's own declared status if it has one, else the base class's; the root has none |
| Exceptions.MakeExc | utils/exceptions.py:10-13 | the constructor keeps class and message and turns absent `details` into the empty dictionary |
| Exceptions.ToDict | utils/exceptions.py:15-21 | `to_dict` carries the class name, the message and the details |
| Exceptions.ExceptionToHttpResponse | utils/exceptions.py:74-91 | the response body is `to_dict`; the status is the inherited `http_status`, or 500 when there is none |
| Exceptions.ClassNameInjective | utils/exceptions.py:18 | distinct classes have distinct names |
| Exceptions.ToDictInjective | utils/exceptions.py:15-21 | two errors with the same `to_dict` body are the same error |
| Exceptions.StatusByFamily | utils/exceptions.py:24-91 | the validation family answers 400, the PEPPOL family 502, every other class (the bare root included) 500 |
| Exceptions.StatusRange | utils/exceptions.py:74-91 | every response status is 400, 500 or 502 |
| Vat.ParseTaxCode | utils/vat_utils.py:26-72 | a string is found in the tax-code table exactly when it is one of the keys, and then it is that key's text |
| Vat.TaxableIffRated | utils/vat_utils.py:26-72 | a code is taxable exactly when it carries a rate |
| Vat.TaxCodeRates | utils/vat_utils.py:26-72 | SR and RC are rated 5 %, ZR 0 %; ES and OP have no rate |
| Vat.ValidTaxCodes | utils/vat_utils.py:75-85 | exactly SR, ZR, ES, RC and OP are valid codes |
| Vat.GetTaxCodeInfo | utils/vat_utils.py:88-104 | a valid code gives its table entry; any other code gives the `ValueError` message listing the five codes |
| Vat.VatOn | utils/vat_utils.py:146-176 | without a rate, the VAT is zero and net and total are the half-up rounded amount; the code and rate are reported |
| Vat.CalculateVat | utils/vat_utils.py:107-176 | fails with "Invalid tax code: …" exactly for an unknown code; otherwise it is the VAT under that code |
| Vat.ExclusiveBalanced | utils/vat_utils.py:165-175 | on a whole-cent amount, exclusive VAT keeps the amount as net and net + VAT == total |
| Vat.InclusiveNetNoTie | utils/vat_utils.py:161-164 | at 5 % the net backed out of a whole-cent gross never sits on a half-cent tie |
| Vat.InclusiveBalanced | utils/vat_utils.py:161-164 | on a whole-cent gross, inclusive VAT keeps the gross as total and net + VAT == total |
| Vat.InclusiveRecoversNet | utils/vat_utils.py:107-176 | backing VAT out of the exclusive total gives back the original net |
| Vat.WorkedExamples | utils/vat_utils.py:129-144 | 1000 SR exclusive and 1050 SR inclusive both give 1000.00 / 50.00 / 1050.00; ZR and ES give zero VAT |
| Vat.FractionalCentsMayNotBalance | utils/vat_utils.py:165-175 | with sub-cent input the rounded columns need not balance (0.0149 gives 0.01 + 0.00 ≠ 0.02) |
| Vat.CalculateLineItemVat | utils/vat_utils.py:179-204 | line VAT is the VAT on quantity × unit price, with the unit price reported rounded; unknown codes fail |
| Vat.LineBalanced | utils/vat_utils.py:179-204 | a whole quantity at a whole-cent price nets to quantity × price and balances |
| Vat.AggregateInvoiceVat | utils/vat_utils.py:207-248 | the loop's subtotal, VAT and grand total are the column sums of the lines, and its per-code dictionary and key order are `ByCode` / `CodeOrder` |
| Vat.ByCodeKeys | utils/vat_utils.py:221-248 | the breakdown has one key per distinct code among the lines, listed once each in first-seen order |
| Vat.ByCodeIsFilteredSum | utils/vat_utils.py:221-248 | each breakdown entry is the column sums of exactly the lines carrying that code |
| Vat.BreakdownAddsUp | utils/vat_utils.py:207-248 | the per-code entries add up to the invoice's columns |
| Vat.TrnTrailingNewline | utils/vat_utils.py:251-277 | fifteen digits followed by a newline pass the TRN pattern; fourteen digits or a letter do not |
| Vat.FormatTrn | utils/vat_utils.py:280-297 | an invalid TRN comes back unchanged; a valid one becomes 18 characters with spaces at 3, 8 and 13 |
| Vat.FormatTrnRoundTrip | utils/vat_utils.py:280-297 | removing the spaces from a formatted valid TRN gives back its fifteen digits |
| Vat.ClassifyInvoiceType | utils/vat_utils.py:300-332 | "standard" iff not VAT-registered, "full" iff registered and total ≥ 10000.00, "simplified" otherwise |
| Vat.ClassificationMonotone | utils/vat_utils.py:300-332 | raising the total never turns a full invoice into a simplified one |
| Vat.GetInvoiceTypeLabel | utils/vat_utils.py:335-361 | the three English and the three Arabic labels per classification; an unknown type or language gives "INVOICE" |
| Vat.LabelsDistinguishClassification | utils/vat_utils.py:335-361 | in either language the three classifications have three different labels |
| Vat.CalculateVatReturn | utils/vat_utils.py:364-397 | total input VAT is bills plus expenses, and net payable is output less input, each rounded half-up |
| Vat.VatReturnBalanced | utils/vat_utils.py:364-397 | on whole-cent inputs, net payable == output − total input exactly |
| UblTemplate.XmlEscapeSpec | ubl_generator.py:128-137 | escaping equals the per-character entity substitution, so no raw `<`, `>`, `"` or `'` is left and every `&` opens an entity |
| UblTemplate.EscapeEach | ubl_generator.py:128-137 | the per-character reference maps each of the five markup characters to its predefined entity (XML 1.0, section 4.6) |
| UblTemplate.ReplaceEntitiesIsPerChar | ubl_generator.py:132-137 | the five `replace` calls in the source order, ampersand first, equal the per-character escape, so no entity is escaped twice |
| UblTemplate.EntitiesOfOneChar | ubl_generator.py:132-137 | on one character, the five replacements produce exactly its entity |
| UblTemplate.XmlEscapeRoundTrip | ubl_generator.py:128-137 | decoding the five entities gives back exactly the escaped text |
| UblTemplate.UnescapeEscapeChar | ubl_generator.py:128-137 | decoding reads an escaped character back, whatever follows it |
| UblTemplate.UnescapePlain | ubl_generator.py:128-137 | a character that opens no entity is decoded as itself |
| UblTemplate.FormatDateSpec | ubl_generator.py:140-146 | a string keeps exactly its part before the first 'T'; a date renders as `YYYY-MM-DD` and parses back to the same date |
| UblTemplate.OptionalElementSpec | ubl_generator.py:41-108 | an optional element is omitted exactly when its field is falsy, and otherwise wraps the rendered value in its tags |
| UblTemplate.ReasonCodeOnlyWithReason | ubl_generator.py:169-182 | the billing reference carries a CreditNoteReasonCode exactly when a reason is given |
| UblTemplate.PaymentTermsSpec | ubl_generator.py:185-193 | the payment-terms block appears exactly when terms or due days are given; given terms win over "Payment due within N days" |
| UblTemplate.SumTaxConcat | ubl_generator.py:196-220 | the summed tax amount is additive over the breakdown list |
| UblTemplate.TaxSubtotalXml | ubl_generator.py:196-220 | one subtotal fails on the first key it lacks; the tax category defaults to "S" |
| UblTemplate.TaxTotalXml | ubl_generator.py:196-220 | the TaxTotal fails exactly when some breakdown lacks its `taxable_amount`, `tax_amount` or `tax_percent` |
| UblTemplate.TaxTotalFirstFailure | ubl_generator.py:196-220 | a failed TaxTotal names the missing key of the first incomplete breakdown |
| UblTemplate.TaxTotalXmlEnds | ubl_generator.py:196-220 | a rendered TaxTotal opens with the sum of the breakdown tax amounts and closes the block |
| UblTemplate.GenerateTaxTotal | ubl_generator.py:196-220 | the `+=` loop over the breakdowns builds exactly `TaxTotalXml` |
| UblTemplate.TaxSubtotalsConcat | ubl_generator.py:196-220 | subtotals follow the breakdown list: a concatenated list renders part by part |
| UblTemplate.InvoiceLineXml | ubl_generator.py:223-251 | one line fails on the first key it lacks; unit code defaults to C62, tax category to S and percent to 5.00 |
| UblTemplate.InvoiceLinesXml | ubl_generator.py:223-251 | the lines render in list order and fail exactly when some line lacks a field |
| UblTemplate.InvoiceLinesFirstFailure | ubl_generator.py:223-251 | a failed rendering names the missing key of the first incomplete line |
| UblTemplate.GenerateInvoiceLines | ubl_generator.py:223-251 | the `+=` loop over the items builds exactly `InvoiceLinesXml`, with no sorting |
| UblTemplate.InvoiceLinesConcat | ubl_generator.py:223-251 | rendering a concatenation of line lists renders the first list, then the second |
| UblTemplate.SupplierCompanyId | ubl_generator.py:77 | the supplier legal-entity CompanyID is its PEPPOL id, else the first ten characters of its TRN |
| UblTemplate.AssembleEnds | ubl_generator.py:10-125 | the document opens with the XML declaration and ends with the lines and `</Invoice>` |
| UblTemplate.RenderParts | ubl_generator.py:10-125 | a successful lookup pass has an invoice with every subscripted header field and total present |
| UblTemplate.RenderPartsSucceeds | ubl_generator.py:10-125 | the lookups succeed exactly when the invoice, its header fields, its totals, every breakdown amount and every line field are present |
| UblTemplate.RenderPartsFailures | ubl_generator.py:10-125 | the failing key is the first missing one, in template order: invoice, header field, breakdown amount, total, line field |
| UblTemplate.GeneratePintAeXmlContract | ubl_generator.py:10-125 | a document is produced exactly when the lookups succeed, and it is then the template assembled from the rendered parts, a function of the input alone (no clock, no randomness); otherwise the error is the lookups' first missing key |
| UblTemplate.AssembledEnds | ubl_generator.py:10-125 | a result holding the assembled parts opens with the XML declaration and closes with the lines and `</Invoice>` |
| UblTemplate.GeneratePintAeXmlEnds | ubl_generator.py:10-125 | a successful document opens with the XML declaration and closes with the rendered lines and `</Invoice>` |
| UblTemplate.CalculateXmlHash | ubl_generator.py:254-256 | the fingerprint is the lower-case hex of SHA-256 over the document, so equal documents have equal fingerprints |
| UblTemplate.CheckRequiredFields | ubl_generator.py:269-281 | one "missing" error per falsy mandatory field, in checking order |
| UblTemplate.CheckTrns | ubl_generator.py:288-292 | a given supplier or customer TRN must have fifteen characters |
| UblTemplate.CheckCreditNote | ubl_generator.py:295-299 | type 381 needs a credit-note reason and a preceding invoice id |
| UblTemplate.ValidatePintAeInvoice | ubl_generator.py:259-306 | the appending passes collect every error without stopping, and the result is valid iff none was found |
| UblTemplate.MissingFieldErrorsCount | ubl_generator.py:269-281 | the number of missing-field errors is the number of falsy mandatory fields |
| UblTemplate.PintAeValidIff | ubl_generator.py:259-306 | valid exactly when every mandatory field is set, there is a line, given TRNs have 15 characters, a credit note has its reason and reference, and a non-AED invoice has its AED total |
| UblTemplate.TrnCheckedByLengthOnly | ubl_generator.py:288-292 | a fifteen-letter supplier TRN draws no TRN error |
| UblTree.ElementTagPrefixes | utils/ubl_xml_generator.py:55-71 | a bare name gets the `cbc:` prefix, a prefixed one is kept, so the rule is idempotent |
| UblTree.QualifiedNamePrefixed | utils/ubl_xml_generator.py:55-63 | every tree tag below the root is named through that rule (basic components) or as `cac:` plus its name (aggregates): a bare basic name becomes `cbc:` plus the name, every such tag carries a prefix, and passing it through the rule again changes nothing |
| UblTree.InvoiceLines | utils/ubl_xml_generator.py:309-354 | one `InvoiceLine` per item |
| UblTree.UblXmlGenerator.constructor | utils/ubl_xml_generator.py:21-22 | the generator starts with no root |
| UblTree.UblXmlGenerator.AddChild | utils/ubl_xml_generator.py:55-71 | `SubElement` appends one child to the root and changes nothing else |
| UblTree.UblXmlGenerator.AddUblVersion | utils/ubl_xml_generator.py:73-75 | appends UBLVersionID 2.1 |
| UblTree.UblXmlGenerator.AddCustomizationId | utils/ubl_xml_generator.py:77-83 | appends the PEPPOL BIS Billing 3.0 CustomizationID |
| UblTree.UblXmlGenerator.AddProfileId | utils/ubl_xml_generator.py:85-91 | appends the PEPPOL BIS Billing 3.0 ProfileID |
| UblTree.UblXmlGenerator.AddInvoiceHeader | utils/ubl_xml_generator.py:93-135 | appends exactly the header elements, in source order |
| UblTree.UblXmlGenerator.AddOptionalHeader | utils/ubl_xml_generator.py:122-135 | appends the note and the two references, each only when its field is truthy |
| UblTree.UblXmlGenerator.AddSupplierParty | utils/ubl_xml_generator.py:137-178 | appends the supplier party |
| UblTree.UblXmlGenerator.AddCustomerParty | utils/ubl_xml_generator.py:180-221 | appends the customer party |
| UblTree.UblXmlGenerator.AddPaymentTerms | utils/ubl_xml_generator.py:223-227 | appends the payment terms only when they are truthy |
| UblTree.UblXmlGenerator.AddTaxTotal | utils/ubl_xml_generator.py:229-269 | appends the document-currency tax total and, when due, the AED one |
| UblTree.UblXmlGenerator.AddMonetaryTotal | utils/ubl_xml_generator.py:271-307 | appends the legal monetary total |
| UblTree.UblXmlGenerator.AddInvoiceLines | utils/ubl_xml_generator.py:309-354 | the loop appends one `InvoiceLine` per item, in list order |
| UblTree.UblXmlGenerator.GenerateInvoiceXml | utils/ubl_xml_generator.py:24-53 | a fresh root, then every section in its fixed order; the result is `InvoiceTree` |
| UblTree.TwoDecimalsReadBack | utils/ubl_xml_generator.py:271-307 | amounts, quantities and percentages carry exactly two decimals and read back to the same hundredths |
| UblTree.YmdReadBack | utils/ubl_xml_generator.py:99-109 | dates are written `YYYY-MM-DD` and read back to the same date |
| UblTree.RootChildOrder | utils/ubl_xml_generator.py:40-50 | the root's children are UBLVersionID, CustomizationID, ProfileID, the header, supplier, customer, PaymentTerms, TaxTotal(s), LegalMonetaryTotal, then the lines; optional ones appear exactly when their field is truthy |
| UblTree.RootLinesLast | utils/ubl_xml_generator.py:309-354 | the invoice lines close the document, one per item in input order |
| UblTree.HeaderCodes | utils/ubl_xml_generator.py:112-120 | InvoiceTypeCode is 381 iff the upper-cased type (TAX_INVOICE when absent) contains CREDIT, else 380; TaxCurrencyCode is always AED |
| UblTree.IssueDateFallback | utils/ubl_xml_generator.py:99-109 | with a truthy issue date the tree does not depend on the clock; without one the IssueDate is today |
| UblTree.SupplierPartyElements | utils/ubl_xml_generator.py:137-178 | the supplier always has its TRN identification and VAT tax scheme, and a postal address exactly when street or city is truthy |
| UblTree.CustomerPartyElements | utils/ubl_xml_generator.py:180-221 | the customer has an identification exactly when `customer_trn` is truthy, and a postal address exactly when street or city is truthy |
| UblTree.CountryDefaultsToAe | utils/ubl_xml_generator.py:137-221 | a postal address without a country names AE |
| UblTree.MonetaryAmounts | utils/ubl_xml_generator.py:271-307 | LineExtension and TaxExclusive amounts read back to the subtotal, TaxInclusive to the total, Payable to `amount_due` or else the total |
| UblTree.TaxTotals | utils/ubl_xml_generator.py:229-269 | one tax total in the document currency, plus an AED one exactly when the currency is not AED and `total_amount_aed` is truthy |
| UblTree.ValidateInvoiceData | utils/ubl_xml_generator.py:363-396 | the appending passes produce exactly `InvoiceDataErrors`, and the data is valid iff that list is empty |
| UblTree.CheckSupplierTrn | utils/ubl_xml_generator.py:382-386 | appends the TRN error when a present supplier TRN is not fifteen digits once spaces are removed |
| UblTree.CheckTotals | utils/ubl_xml_generator.py:388-394 | appends the mismatch error when the total is more than one cent from subtotal plus tax |
| UblTree.ValidIff | utils/ubl_xml_generator.py:363-396 | valid exactly when all eight required fields are truthy, the supplier TRN is fifteen digits and the total is within a cent |
| UblTree.ZeroTaxIsMissing | utils/ubl_xml_generator.py:378-380 | a zero tax amount is reported as a missing field |
| UblTree.GenerateInvoiceXml | utils/ubl_xml_generator.py:399-418 | fails with the validation errors and builds nothing when validation fails; a tree with a character outside XML's `Char` production fails with "XML generation error: …"; otherwise returns the full tree |
| UblTree.FormattedTextXml | utils/ubl_xml_generator.py:356-360 | amounts, counts and dates the generator formats itself always pass the re-parse |
| UblTree.ControlCharacterInSupplierName | utils/ubl_xml_generator.py:356-360 | a supplier name holding a character outside `Char` makes the tree fail the re-parse |
| Crypto.ComputeHash | utils/crypto_utils.py:114-147 | "sha256" and "sha512" give the hex digest of that hash; any other name is a CryptoError |
| Crypto.Sha256Hex | utils/crypto_utils.py:114-147 | the default hash is the hex of SHA-256 and contains no '\|' |
| Crypto.HexDistinct | utils/crypto_utils.py:114-147 | different digests have different hex texts |
| Crypto.CanonicalSplits | utils/crypto_utils.py:149-172 | the canonical chain text splits at '\|' into the seven fields in chain order |
| Crypto.CanonicalInjective | utils/crypto_utils.py:149-172 | separator-free invoices with the same canonical text agree on every chained field |
| Crypto.ChainLinks | utils/crypto_utils.py:284-301 | an invoice whose `prev_invoice_hash` is the hash of its predecessor passes the chain check |
| Crypto.TamperDetected | utils/crypto_utils.py:284-301 | a forged predecessor that differs in a chained field fails the check unless SHA-256 collides |
| Crypto.LoadCertificateFromPem | utils/crypto_utils.py:304-327 | a parse failure becomes a CertificateError |
| Crypto.ValidateCertificate | utils/crypto_utils.py:330-391 | the certificate passes exactly inside its window; expired and not-yet-valid give their CertificateError; success gives serial, subject and days left (RFC 5280, section 4.1.2.5) |
| Crypto.ExpiringSoon | utils/crypto_utils.py:330-391 | fewer than thirty days are left when less than thirty days of seconds remain |
| Crypto.MockSerialMode | utils/crypto_utils.py:51-69 | without a certificate, construction never fails on it and uses the given serial or "MOCK-CERT-001" |
| Crypto.CertificateOutsideWindow | utils/crypto_utils.py:51-69 | an expired or not-yet-valid certificate stops construction with a CertificateError |
| Crypto.Signature | utils/crypto_utils.py:174-215 | no key is a SigningError; otherwise the Base64 of the RSA-PSS signature, or a SigningError when signing fails |
| Crypto.PayloadSplits | utils/crypto_utils.py:217-243 | the signed text splits back into the invoice hash and the hex SHA-256 of the XML |
| Crypto.SignThenVerify | utils/crypto_utils.py:246-282 | a signature made with a key verifies under its public key, given Base64 round-trips |
| Crypto.InvoiceCrypto.constructor | utils/crypto_utils.py:27-84 | stores key, certificate, metadata and serial, with the signing counter at zero |
| Crypto.InvoiceCrypto.SignData | utils/crypto_utils.py:174-215 | returns `Signature`; each success adds one to `signing_count`, a failure leaves it |
| Crypto.InvoiceCrypto.SignInvoice | utils/crypto_utils.py:217-243 | signs exactly `invoice_hash + "\|" + sha256(xml)`, counting as `sign_data` does |
| Crypto.NewInvoiceCrypto | utils/crypto_utils.py:27-84 | the certificate is handled first, then the key; a bad certificate wins; success gives a fresh object with counter zero |
| Crypto.ValidateEnvironmentKeys | utils/crypto_utils.py:394-478 | the step-by-step check fills the results and warnings exactly as `EnvironmentCheck` describes |
| Crypto.ProductionMode | utils/crypto_utils.py:417-478 | with `fail_on_missing`, a missing key is reported first, then a missing certificate; success has both and at most the expiry warning |
| Crypto.DevelopmentMode | utils/crypto_utils.py:417-478 | otherwise only invalid keys or certificates fail; each absence adds a warning, as does expiry under 30 days |
| Crypto.CryptoRegistry.constructor | utils/crypto_utils.py:485-510 | the module starts with no instance |
| Crypto.CryptoRegistry.GetCryptoInstance | utils/crypto_utils.py:485-510 | an existing instance is returned whatever the arguments; otherwise one is built and kept only on success |
| Peppol.StatusValueInjective | utils/peppol_provider.py:12-19 | each status has its own string value |
| Peppol.RStripSlash | utils/peppol_provider.py:34 | the result is the input minus exactly its trailing slashes |
| Peppol.RStripSlashIdempotent | utils/peppol_provider.py:34 | stripping twice is stripping once |
| Peppol.AdapterSend | utils/peppol_provider.py:120-144 | success with SENT exactly on an accepted code, otherwise FAILED with an error and no message id |
| Peppol.AcceptedCodes | utils/peppol_provider.py:226-250 | Basware accepts 200 and 201; Tradeshift accepts only 201 |
| Peppol.AdapterStatus | utils/peppol_provider.py:158-175 | on 200 the reported state, PENDING when none; any other code or an exception is a failure |
| Peppol.StatusIn | utils/peppol_provider.py:337-349 | the mock answers DELIVERED with the record for a known id, else "Message ID not found" |
| Peppol.RecordedIsDelivered | utils/peppol_provider.py:306-349 | a just-recorded id is delivered with its record, and no other id's answer changes |
| Peppol.PeppolProvider.constructor | utils/peppol_provider.py:25-34 | stores the URL without trailing slashes, the key and timeout, and an empty record |
| Peppol.PeppolProvider.SendInvoice | utils/peppol_provider.py:297-335 | the base class fails; adapters decide by `AdapterSend` and record nothing; the mock succeeds and writes only its new id, with separate clock readings for the id, the stored record and the response |
| Peppol.PeppolProvider.GetStatus | utils/peppol_provider.py:337-349 | the base class fails; the mock answers from its record; the adapters by `AdapterStatus` |
| Peppol.PeppolProvider.ValidateParticipantId | utils/peppol_provider.py:177-192 | Tradeshift says 200 means known; Basware and the mock accept everything; the base class fails |
| Peppol.ProviderChoice | utils/peppol_provider.py:378-394 | the lower-cased name picks mock, or Tradeshift or Basware with a truthy URL and key; anything else is a ValueError |
| Peppol.CreateProvider | utils/peppol_provider.py:360-394 | builds the chosen provider, or fails with the chooser's error |
| Peppol.SendInvoiceViaPeppol | utils/peppol_provider.py:398-424 | factory errors propagate; otherwise one send on a fresh provider |
| Mfa.RemoveFirst | utils/mfa_utils.py:156-158 | `list.remove` drops one occurrence, or leaves a list without it unchanged |
| Mfa.VerifyBackupList | utils/mfa_utils.py:149-165 | a non-empty code whose hash is stored succeeds and leaves the list without that hash; otherwise fails with no list |
| Mfa.VerifyBackupCode | utils/mfa_utils.py:138-165 | the same on the stored JSON text, where empty text or undecodable JSON fails |
| Mfa.BackupCodeSingleUse | utils/mfa_utils.py:149-165 | a code stored once is accepted once and then rejected |
| Mfa.OtherCodesSurvive | utils/mfa_utils.py:149-165 | using one code leaves every other stored code usable |
| Mfa.DisplayLines | utils/mfa_utils.py:201-211 | one line `"{n}. {code}"` per code, numbered in order |
| Mfa.FormatBackupCodesLines | utils/mfa_utils.py:201-211 | the display text splits on newlines back into those numbered lines |
| Mfa.Recent | utils/mfa_utils.py:268-273 | keeps exactly the send times after the cutoff, in order |
| Mfa.RecordSendEndsWithNow | utils/mfa_utils.py:263-273 | the send just recorded ends the pruned history |
| Mfa.RecordSendKeeps | utils/mfa_utils.py:263-273 | recording keeps a tail of sends that are all within the hour |
| Mfa.ThreeSendsBlock | utils/mfa_utils.py:326-351 | three sends within an hour block a fourth until the first is an hour old |
| Mfa.OldSendsExpire | utils/mfa_utils.py:326-351 | a send more than an hour ago no longer counts |
| Mfa.VerifyStep | utils/mfa_utils.py:279-317 | no entry fails unchanged; expiry or five attempts clear and fail; a match clears and succeeds; a miss counts one attempt; no other e-mail changes |
| Mfa.VerifyKeepsAttemptsBounded | utils/mfa_utils.py:303-309 | attempt counters stay at most five |
| Mfa.FreshCodeVerifiesOnce | utils/mfa_utils.py:252-314 | a fresh code verifies once, at any time up to its expiry, and then never again |
| Mfa.WrongCodesLockOut | utils/mfa_utils.py:303-317 | after five wrong codes even the right code fails |
| Mfa.EmailOtpManager.constructor | utils/mfa_utils.py:235-236 | both stores start empty |
| Mfa.EmailOtpManager.GenerateAndStore | utils/mfa_utils.py:242-273 | replaces the entry with attempts 0 and expiry now + 10 minutes, then records and prunes the send history |
| Mfa.EmailOtpManager.Clear | utils/mfa_utils.py:320-323 | removes only that e-mail's entry |
| Mfa.EmailOtpManager.Verify | utils/mfa_utils.py:279-317 | result and new store are those of `VerifyStep`; the send history is unchanged |
| Mfa.EmailOtpManager.CanSend | utils/mfa_utils.py:326-351 | true for an unknown e-mail, else iff fewer than three sends fall within the last hour |
| BulkImport.MissingColumns | utils/bulk_import.py:69-72 | exactly the required columns the table lacks |
| BulkImport.MissingColumnsConcat | utils/bulk_import.py:69-72 | the missing columns of a concatenation are those of each part in turn, so the report keeps the required order |
| BulkImport.MissingColumn | utils/bulk_import.py:69-72 | one required column is reported exactly when the table lacks it |
| BulkImport.Messages | utils/bulk_import.py:74-106 | each row problem becomes one message prefixed with the row number |
| BulkImport.MessagesNumbered | utils/bulk_import.py:74-106 | every message names its row |
| BulkImport.RowsFromOutcome | utils/bulk_import.py:74-127 | the loop succeeds iff every error-free row parses, yielding all rows' errors and the error-free rows' records |
| BulkImport.ValidateRows | utils/bulk_import.py:74-127 | the appending loop computes exactly `RowsFrom` |
| BulkImport.ValidateFile | utils/bulk_import.py:47-130 | the shared steps compute exactly `FileOutcome` |
| BulkImport.FileOutcomeSpec | utils/bulk_import.py:47-130 | an unsupported name or a missing column gives one error and no records; otherwise, unless parsing aborts, valid iff no row has an error |
| BulkImport.QuantityProblems | utils/bulk_import.py:87-92 | at most one problem, none iff the quantity is present, numeric and positive |
| BulkImport.UnitPriceProblems | utils/bulk_import.py:94-99 | at most one problem, none iff the price is absent or numeric and non-negative |
| BulkImport.InvoiceRowProblemsSpec | utils/bulk_import.py:78-103 | no problem iff the row meets every rule, at most one per rule |
| BulkImport.ParsedInvoiceValues | utils/bulk_import.py:108-124 | a record has non-blank number and customer, a 15-character TRN, positive quantity, non-negative price and a known type |
| BulkImport.ParsedInvoiceDefaults | utils/bulk_import.py:108-124 | empty cells default to today, 5 % tax, no discount and no notes |
| BulkImport.ValidateInvoiceFile | utils/bulk_import.py:47-130 | the invoice validator is the shared outcome with the invoice columns, rules and parser |
| BulkImport.VendorRowProblemsSpec | utils/bulk_import.py:160-167 | no problem iff the row meets every vendor rule, at most three problems |
| BulkImport.ParsedVendorSpec | utils/bulk_import.py:172-182 | a vendor has a non-blank name and 15-character TRN; terms default to "Net 30", active to true |
| BulkImport.ValidateVendorFile | utils/bulk_import.py:133-188 | the vendor validator is the shared outcome with the vendor columns, rules and parser |
| FtaAudit.Values | utils/fta_audit_generator.py:23-45 | a row has one value per FAF header |
| FtaAudit.TaxInfoSpec | utils/fta_audit_generator.py:178-203 | OOS iff the subtotal is zero; ZR iff it is negative or the tax is zero; SR at 5.00 iff the rate is within 4.5–5.5 %; EX otherwise |
| FtaAudit.FivePercentIsStandardRated | utils/fta_audit_generator.py:178-203 | 5 % of a positive subtotal is SR at 5.00 |
| FtaAudit.MapInvoiceType | utils/fta_audit_generator.py:205-213 | 381, 480 and 81 have their names; every other code is "Tax Invoice" |
| FtaAudit.FormatDate | utils/fta_audit_generator.py:215-221 | a date is written `YYYY-MM-DD` and reads back to that date; a string is unchanged; anything else is empty |
| FtaAudit.SalesRowShape | utils/fta_audit_generator.py:120-147 | supplier columns empty, "Sale", "N/A" for a missing customer TRN, customer country AE by default, and the inferred tax code |
| FtaAudit.PurchaseRowShape | utils/fta_audit_generator.py:149-176 | customer columns empty, "Purchase", supplier in AE, number from the supplier invoice number |
| FtaAudit.AuditRowsOrder | utils/fta_audit_generator.py:84-104 | one row per invoice, the sales first and then the purchases |
| FtaAudit.DistinctCustomersBound | utils/fta_audit_generator.py:84-104 | there are never more distinct customers than sales |
| FtaAudit.SalesPass | utils/fta_audit_generator.py:84-91 | the first loop yields the sales rows, their count, their TRN set and their amount and VAT sums |
| FtaAudit.PurchasePass | utils/fta_audit_generator.py:93-100 | the second loop does the same for purchases and supplier TRNs |
| FtaAudit.GenerateCsv | utils/fta_audit_generator.py:56-118 | the rows in order, and statistics whose customer and supplier counts are the distinct non-empty TRNs |
| FtaAudit.WriteLines | utils/fta_audit_generator.py:251-258 | the writing loop emits the header, then each item's line in turn |
| FtaAudit.CollectSalesRows | utils/fta_audit_generator.py:240-241 | the first loop yields exactly one sales row per outgoing invoice, in order |
| FtaAudit.AppendPurchaseRows | utils/fta_audit_generator.py:243-244 | the second loop appends exactly one purchase row per inward invoice, in order |
| FtaAudit.GenerateTxt | utils/fta_audit_generator.py:223-260 | the text is the header line plus one line per row, and the reported count is all invoices |
| FtaAudit.TxtLineFields | utils/fta_audit_generator.py:251-258 | a line splits on tabs back into the row's values, in header order |
| FtaAudit.LinesTextAt | utils/fta_audit_generator.py:251-258 | the k-th row's line follows the lines of the rows before it |
| Registration.TrnChecksAgree | main.py:177-181 | the wizard's TRN check is the VAT pattern without the trailing newline it tolerates |
| Registration.DefaultPlansShape | main.py:189-227 | the three seeded plans are active and only enterprise is unlimited |
| Registration.CompleteStep | main.py:358-360 | a completed step sets its flag and `current_step` to its number + 1, and nothing else |
| Registration.RunFlags | main.py:339-541 | after any sequence of steps, a flag is set iff it was before or that step was done |
| Registration.RunCurrentStep | main.py:339-541 | `current_step` follows the last step completed |
| Registration.RedoingStepOneRewindsCurrentStep | main.py:358-360 | redoing step 1 after step 3 sets `current_step` back to 2 |
| Registration.Finalize | main.py:554-564 | fails with 400 unless all four flags are set; then marks review and completed |
| Registration.FinalizeAfterAllSteps | main.py:546-570 | once all four steps are done, in any order, submission succeeds |
| Registration.FinalizeNeedsEveryStep | main.py:546-570 | submission fails while some step was never done |
| Registration.UploadedTypes | main.py:495-502 | the types uploaded for that company |
| Registration.MissingDocuments | main.py:495-502 | the required types not uploaded, licence first; empty iff both are there |
| Registration.NothingUploadedDetail | main.py:495-502 | with nothing uploaded both types are named, BUSINESS_LICENSE first |
| Registration.CheckUpload | main.py:416-423 | accepted iff an allowed type and at most 10 MiB; the type is checked first |
| Registration.UploadSizeBoundary | main.py:421-423 | exactly 10 MiB passes; one byte more fails |
| Registration.Extension | main.py:427-428 | the extension has no dot; a name without a dot gives "pdf" |
| Registration.ExtensionOfDottedName | main.py:427-428 | a dotted name keeps its last segment as extension, whatever dots come before it |
| Registration.MultiDotExtensions | main.py:427-428 | "scan.v2.pdf" gives "pdf" and "a.tar.gz" gives "gz" |
| Registration.FirstSubscriptionOf | main.py:650-652 | the index of the company's first subscription, or the length when there is none |
| Registration.RegistrationStore.constructor | main.py:313-337 | an empty, consistent store |
| Registration.RegistrationStore.SeedPlans | main.py:183-233 | the three default plans, unless some plan exists already |
| Registration.RegistrationStore.InitRegistration | main.py:313-337 | a new company pending review in AE with its progress at step 1 |
| Registration.RegistrationStore.RegisterStep1 | main.py:339-363 | a bad legal name is 422, an unknown session 404; success stores the information and completes step 1 |
| Registration.RegistrationStore.RegisterStep2 | main.py:365-398 | unknown session 404; a given invalid TRN 400 with nothing stored; success stores details and completes step 2 |
| Registration.RegistrationStore.UploadDocument | main.py:400-460 | unknown session 404; a rejected file its error; success appends one pending document |
| Registration.RegistrationStore.RegisterStep3 | main.py:492-509 | fails with 400 naming the missing types; otherwise completes step 3 |
| Registration.RegistrationStore.RegisterStep4 | main.py:511-544 | unknown company 404; missing or inactive plan 404; success adds a trial from the first reading of today to 14 days after the second reading, and completes step 4 |
| Registration.RegistrationStore.FinalizeRegistration | main.py:546-570 | unknown registration 404; otherwise the outcome of `Finalize`, with the company left pending review |
| Registration.RegistrationStore.ApproveCompany | main.py:640-655 | the company and its first subscription become active |
| Registration.RegistrationStore.RejectCompany | main.py:657-667 | the company becomes rejected and the reason is echoed |

## Left out

- Floating point. Python `float` amounts in the serialisers, the audit export and the bulk import are whole cents or exact reals here. Binary rounding of `:.2f` and `float()` of arbitrary text are not modelled; bulk-import numeric cells are pre-classified as numeric or not.
- Keys present with the value `None` are not told apart from absent keys.
- Upper-casing, lower-casing and `isdigit` are ASCII-only; Unicode digits and case rules are not modelled.
- `str.strip()` removes only Latin-1 whitespace here. Python also strips U+1680, U+2000 to U+200A, U+2028, U+2029, U+202F, U+205F and U+3000. So a bulk-import cell made only of those characters counts as non-blank, and a TRN padded with them counts as more than 15 characters.
- `Decimal` context rounding is not modelled. Python rounds each `Decimal` operation to 28 significant digits, for example the inclusive net `total / (1 + rate)` before it is quantized. The model computes exactly, which only differs beyond about 26 significant digits.
- Pretty-printing the element tree with minidom is not modelled beyond its rejection of characters outside `Char`: the tree is the result.
- UblTree.GenerateInvoiceXml: the parser's error message is a parameter, not reproduced. Exceptions other than the re-parse of a character outside `Char` are not modelled: the model's field types rule out the formatting errors Python could raise on ill-typed values.
- Real SHA-256/512, RSA-PSS, Base64, and PEM and X.509 parsing are not modelled. They are parameters, with only the properties the lemmas assume of them.
- `generate_key_pair` is not part of this model.
- The exception raised while reading certificate metadata is not modelled, nor the nested `details` dictionary of validation results.
- Logging and printing are left out.
- The HTTP client is not modelled: each call is a given outcome. The adapters' JSON response bodies are reduced to the fields read, and a failing `response.json()` counts as an exception outcome.
- TOTP (pyotp), QR images and `secrets` random codes are not part of this model; codes arrive as parameters.
- Mfa.EmailOtpManager.GenerateAndStore reads the clock once, so expiry and creation time share one instant. The two separate clock readings of the source are not modelled.
- JSON decoding and encoding of stored backup codes are parameters.
- Reading spreadsheets with pandas is not modelled: rows are records of optional cells.
- UblTree.CheckTotals compares whole cents, so a one-cent difference is never a mismatch. Python compares binary floats, and a one-cent difference can come out just above `0.01`: a total of 100.02 against 100.00 + 0.01 gives 0.010000000000005 and is flagged there.
- UblTree.QualifiedNamePrefixed states the `cbc:` form for a basic component under the hypothesis that its local name has no colon. The fifty-three literal names are not each proved colon-free.
- Registration.RegistrationStore.ApproveCompany activates the first subscription of the company in insertion order. The source's `.first()` has no `ORDER BY`, so the database may return any of the company's subscriptions. In this model only registration adds a subscription, one per company, so the choice matters only for subscriptions created outside the model.
- BulkImport.ValidateInvoiceFile quotes a cell in the `float()` conversion message by wrapping its text in single quotes. Python writes the cell's `repr` there, so the text differs for a cell that contains a quote or a backslash. `TypeError` messages for cells that are not strings are not modelled, because every cell is text here. The `KeyError` text for an absent optional column and the order of the two checks are modelled.
- BulkImport.ValidateInvoiceFile reads the clock once per file: every row without an `issue_date` gets the same `today`. The source calls `datetime.now()` again for each such row, so rows handled on either side of midnight can get different dates.
- FtaAudit.GenerateTxt returns only the invoice count. The source also returns `total_amount` and `total_vat`, which it never updates (they stay 0.0), and a file size.
- Writing the CSV and TXT files, directory creation and file sizes are not modelled, nor the CSV quoting of `DictWriter`.
- Web routing, database sessions and pydantic validation of registration payloads (other than the legal-name length) are not modelled.
- Registration uses generated identifiers as parameters, so InitRegistration requires an identifier not yet in use. Document issue and expiry dates and document numbers are not stored.
- Registration.RegistrationStore.UploadDocument leaves out the failure when `date.fromisoformat` rejects a malformed issue or expiry date: the source then raises after writing the file and records no document, while the model records the document.
- Listing or deleting documents, reading progress and the plan endpoints are not modelled.
- The missing-progress path of the registration steps is not modelled: the store invariant pairs every company with a progress record, so it cannot arise.
- Mfa: TOTP secret generation and verification are not part of this model.
- Transmission state machines, idempotent resends, and lookup or per-issuer serialisation of the previous invoice hash have no code in the repository and are not modelled.
- Concurrency on the shared OTP stores and module singletons is ignored.
