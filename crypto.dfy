/**
 * Invoice integrity: the hash chain that links each invoice to its
 * predecessor, the RSA-PSS signing object with its key, certificate and
 * signature counter, certificate validity-window checks, and the start-up
 * check of the signing keys held in the environment.
 *
 * SHA-256/512 (FIPS 180-4), RSASSA-PSS (section 8.1 of RFC 8017), Base64
 * (section 4 of RFC 4648), PEM/X.509 parsing and timestamp formatting are
 * not modelled; they are the `Primitives` every operation receives.
 */
module Crypto {
  import opened Common
  import opened Exceptions

  // ---------------------------------------------------------------- the library

  /** An exception raised inside the cryptography library: `str(e)` and `type(e).__name__`. */
  datatype LibError = LibError(message: string, typeName: string)

  /** A loaded key; its material is the library's business. */
  datatype PrivateKey = PrivateKey(handle: nat)
  datatype PublicKey = PublicKey(handle: nat)

  /** The name attributes read from a certificate's subject or issuer. */
  datatype Name = Name(commonName: Option<string>, organization: Option<string>, country: Option<string>)

  /** The fields of an X.509 certificate the code reads; instants are seconds. */
  datatype Certificate = Certificate(serialNumber: nat, subject: Name, issuer: Name,
                                     notValidBefore: int, notValidAfter: int)

  /** The library operations, as functions of their inputs. */
  datatype Primitives = Primitives(
    sha256: string -> seq<Byte>,
    sha512: string -> seq<Byte>,
    loadPrivateKey: string -> Result<PrivateKey, LibError>,
    loadPublicKey: string -> Result<PublicKey, LibError>,
    loadCertificate: string -> Result<Certificate, LibError>,
    pssSign: (PrivateKey, string) -> Result<seq<Byte>, LibError>,
    pssVerify: (PublicKey, seq<Byte>, string) -> bool,
    b64encode: seq<Byte> -> string,
    b64decode: string -> Result<seq<Byte>, LibError>,
    isoformat: int -> string)

  // ---------------------------------------------------------------- hashing

  /**
   * `compute_hash`: the hex digest of the text under SHA-256 or SHA-512;
   * any other algorithm name is a CryptoError.
   */
  function ComputeHash(p: Primitives, data: string, algorithm: string): (r: Result<string, Exc>)
    ensures r.Success? <==> algorithm == "sha256" || algorithm == "sha512"
    ensures algorithm == "sha256" ==> r.Success? && HexText(r.value) && HexDecode(r.value) == p.sha256(data)
    ensures algorithm == "sha512" ==> r.Success? && HexText(r.value) && HexDecode(r.value) == p.sha512(data)
    ensures r.Failure? ==> r.error.cls == CryptoError && r.error.message == "Unsupported hash algorithm: " + algorithm
  {
    if algorithm == "sha256" then Success(Sha256Hex(p, data))
    else if algorithm == "sha512" then
      HexRoundTrip(p.sha512(data));
      Success(HexDigest(p.sha512(data)))
    else Failure(MakeExc(CryptoError, "Unsupported hash algorithm: " + algorithm,
                         Some(map["supported" := "['sha256', 'sha512']"])))
  }

  /** Lower-case hex digit pairs, as `hexdigest()` writes them. */
  predicate HexText(s: string) {
    |s| % 2 == 0 && forall i :: 0 <= i < |s| ==> IsLowerHex(s[i])
  }

  /** `compute_hash` with its default algorithm. */
  function Sha256Hex(p: Primitives, data: string): (r: string)
    ensures HexText(r) && HexDecode(r) == p.sha256(data)
    ensures !ContainsChar(r, '|')
  {
    HexRoundTrip(p.sha256(data));
    HexDigest(p.sha256(data))
  }

  /** Different digests have different hex renderings. */
  lemma HexDistinct(a: seq<Byte>, b: seq<Byte>)
    requires a != b
    ensures HexDigest(a) != HexDigest(b)
  {
    HexRoundTrip(a);
    HexRoundTrip(b);
  }

  // ---------------------------------------------------------------- the hash chain

  /**
   * The fields of an invoice dictionary that enter the chain hash, each as
   * `str()` of its value; `None` is an absent key.
   */
  datatype ChainFields = ChainFields(
    invoiceNumber: Option<string>, issueDate: Option<string>, supplierTrn: Option<string>,
    customerTrn: Option<string>, totalAmount: Option<string>, taxAmount: Option<string>,
    prevInvoiceHash: Option<string>)

  /** The seven canonical fields in chain order, absent ones replaced by '' or '0.0'. */
  function CanonicalFields(f: ChainFields): seq<string> {
    [GetOr(f.invoiceNumber, ""), GetOr(f.issueDate, ""), GetOr(f.supplierTrn, ""),
     GetOr(f.customerTrn, ""), GetOr(f.totalAmount, "0.0"), GetOr(f.taxAmount, "0.0"),
     GetOr(f.prevInvoiceHash, "")]
  }

  /** The '|'-joined canonical text that is hashed. */
  function CanonicalString(f: ChainFields): string {
    Join("|", CanonicalFields(f))
  }

  /** `compute_invoice_hash` */
  function ComputeInvoiceHash(p: Primitives, f: ChainFields): string {
    Sha256Hex(p, CanonicalString(f))
  }

  /** `verify_hash_chain`: the current invoice names the hash of the previous one. */
  predicate VerifyHashChain(p: Primitives, current: ChainFields, previous: ChainFields) {
    ComputeInvoiceHash(p, previous) == GetOr(current.prevInvoiceHash, "")
  }

  /** No canonical field contains the separator. */
  predicate SeparatorFree(f: ChainFields) {
    forall s | s in CanonicalFields(f) :: !ContainsChar(s, '|')
  }

  /**
   * Splitting the canonical text at '|' gives back the seven fields in chain
   * order, so long as no field contains '|'.
   */
  lemma CanonicalSplits(f: ChainFields)
    requires SeparatorFree(f)
    ensures Split(CanonicalString(f), '|') == CanonicalFields(f)
    ensures |CanonicalFields(f)| == 7
  {
    SplitJoin(CanonicalFields(f), '|');
  }

  /** Separator-free invoices with the same canonical text agree on every chained field. */
  lemma CanonicalInjective(f: ChainFields, g: ChainFields)
    requires SeparatorFree(f) && SeparatorFree(g)
    ensures CanonicalString(f) == CanonicalString(g) ==> CanonicalFields(f) == CanonicalFields(g)
  {
    CanonicalSplits(f);
    CanonicalSplits(g);
  }

  /** The successor whose `prev_invoice_hash` is the hash of `previous` passes the chain check. */
  lemma ChainLinks(p: Primitives, current: ChainFields, previous: ChainFields)
    requires current.prevInvoiceHash == Some(ComputeInvoiceHash(p, previous))
    ensures VerifyHashChain(p, current, previous)
  {
  }

  /**
   * Tampering is detected: if the chain holds for `previous`, then a
   * `forged` predecessor that differs in a chained field fails it, unless
   * SHA-256 collides on the two canonical texts.
   */
  lemma TamperDetected(p: Primitives, current: ChainFields, previous: ChainFields, forged: ChainFields)
    requires VerifyHashChain(p, current, previous)
    requires SeparatorFree(previous) && SeparatorFree(forged)
    requires CanonicalFields(forged) != CanonicalFields(previous)
    requires CanonicalString(forged) != CanonicalString(previous) ==>
      p.sha256(CanonicalString(forged)) != p.sha256(CanonicalString(previous))
    ensures !VerifyHashChain(p, current, forged)
  {
    CanonicalInjective(forged, previous);
    HexDistinct(p.sha256(CanonicalString(forged)), p.sha256(CanonicalString(previous)));
  }

  // ---------------------------------------------------------------- certificates

  /** The metadata extracted from a valid certificate. */
  datatype CertMetadata = CertMetadata(serialNumber: string, subject: Name, issuer: Name,
                                       validFrom: string, validUntil: string, daysUntilExpiry: int)

  const SecondsPerDay := 86400

  /** `load_certificate_from_pem`: a parse failure becomes a CertificateError. */
  function LoadCertificateFromPem(p: Primitives, pem: string): (r: Result<Certificate, Exc>)
    ensures r.Success? <==> p.loadCertificate(pem).Success?
    ensures r.Success? ==> r.value == p.loadCertificate(pem).value
    ensures r.Failure? ==> r.error.cls == CertificateError
  {
    match p.loadCertificate(pem)
    case Success(c) => Success(c)
    case Failure(e) => Failure(MakeExc(CertificateError, "Failed to load certificate: " + e.message,
                                       Some(map["error_type" := e.typeName])))
  }

  /**
   * `validate_certificate` at instant `now`: a certificate past its
   * notAfter is expired, one before its notBefore is not yet valid (RFC
   * 5280, section 4.1.2.5); otherwise its metadata, with the whole days left.
   */
  function ValidateCertificate(p: Primitives, cert: Certificate, now: int): (r: Result<CertMetadata, Exc>)
    ensures r.Success? <==> cert.notValidBefore <= now <= cert.notValidAfter
    ensures r.Failure? ==> r.error.cls == CertificateError
    ensures cert.notValidAfter < now ==> r.error.message == "Certificate has expired"
    ensures cert.notValidBefore > now && now <= cert.notValidAfter ==> r.error.message == "Certificate not yet valid"
    ensures r.Success? ==>
      r.value.daysUntilExpiry >= 0
      && r.value.daysUntilExpiry * SecondsPerDay <= cert.notValidAfter - now < (r.value.daysUntilExpiry + 1) * SecondsPerDay
    ensures r.Success? ==> r.value.serialNumber == NatToString(cert.serialNumber) && r.value.subject == cert.subject
  {
    if cert.notValidAfter < now then
      Failure(MakeExc(CertificateError, "Certificate has expired",
        Some(map["expired_at" := p.isoformat(cert.notValidAfter), "current_time" := p.isoformat(now)])))
    else if cert.notValidBefore > now then
      Failure(MakeExc(CertificateError, "Certificate not yet valid",
        Some(map["valid_from" := p.isoformat(cert.notValidBefore), "current_time" := p.isoformat(now)])))
    else
      Success(CertMetadata(NatToString(cert.serialNumber), cert.subject,
        Name(cert.issuer.commonName, cert.issuer.organization, None),
        p.isoformat(cert.notValidBefore), p.isoformat(cert.notValidAfter),
        (cert.notValidAfter - now) / SecondsPerDay))
  }

  /** Fewer than 30 days left exactly when less than 30 days of seconds remain. */
  lemma ExpiringSoon(p: Primitives, cert: Certificate, now: int)
    requires ValidateCertificate(p, cert, now).Success?
    ensures ValidateCertificate(p, cert, now).value.daysUntilExpiry < 30
            <==> cert.notValidAfter - now < 30 * SecondsPerDay
  {
  }

  // ---------------------------------------------------------------- the signing object

  const MockCertSerial := "MOCK-CERT-001"

  /**
   * The certificate half of `__init__`: with a certificate, load and validate
   * it and take its serial; without, use the given serial or the mock one.
   */
  function CertificateSetup(p: Primitives, certPem: Option<string>, certSerial: Option<string>, now: int)
    : Result<(Option<Certificate>, Option<CertMetadata>, string), Exc>
  {
    if Truthy(certPem) then
      match LoadCertificateFromPem(p, certPem.value)
      case Failure(e) => Failure(e)
      case Success(c) =>
        match ValidateCertificate(p, c, now)
        case Failure(e) => Failure(e)
        case Success(m) => Success((Some(c), Some(m), m.serialNumber))
    else
      Success((None, None, if Truthy(certSerial) then certSerial.value else MockCertSerial))
  }

  /** The key half of `__init__`: a key that does not load is a SigningError naming the serial. */
  function KeySetup(p: Primitives, keyPem: Option<string>, serial: string): Result<Option<PrivateKey>, Exc> {
    if Truthy(keyPem) then
      match p.loadPrivateKey(keyPem.value)
      case Success(k) => Success(Some(k))
      case Failure(e) => Failure(MakeExc(SigningError, "Failed to load private key: " + e.message,
                                         Some(map["cert_serial" := serial, "error_type" := e.typeName])))
    else Success(None)
  }

  /** Construction without a certificate never fails on the certificate and uses the given or the mock serial. */
  lemma MockSerialMode(p: Primitives, certPem: Option<string>, certSerial: Option<string>, now: int)
    requires !Truthy(certPem)
    ensures var s := CertificateSetup(p, certPem, certSerial, now);
      s.Success? && s.value.0.None? && s.value.1.None?
      && s.value.2 == (if Truthy(certSerial) then certSerial.value else "MOCK-CERT-001")
  {
  }

  /** An expired or not-yet-valid certificate stops construction with a CertificateError. */
  lemma CertificateOutsideWindow(p: Primitives, certPem: Option<string>, certSerial: Option<string>, now: int)
    requires Truthy(certPem) && p.loadCertificate(certPem.value).Success?
    requires var c := p.loadCertificate(certPem.value).value; now < c.notValidBefore || c.notValidAfter < now
    ensures CertificateSetup(p, certPem, certSerial, now).Failure?
    ensures CertificateSetup(p, certPem, certSerial, now).error.cls == CertificateError
  {
  }

  /** What `sign_data` produces with a given key: a Base64 RSA-PSS signature or a SigningError. */
  function Signature(p: Primitives, key: Option<PrivateKey>, serial: string, data: string): (r: Result<string, Exc>)
    ensures key.None? ==> r.Failure? && r.error.message == "No private key available for signing"
    ensures r.Success? <==> key.Some? && p.pssSign(key.value, data).Success?
    ensures r.Success? ==> r.value == p.b64encode(p.pssSign(key.value, data).value)
    ensures r.Failure? ==>
      r.error.cls == SigningError && "cert_serial" in r.error.details && r.error.details["cert_serial"] == serial
  {
    match key
    case None => Failure(MakeExc(SigningError, "No private key available for signing", Some(map["cert_serial" := serial])))
    case Some(k) =>
      match p.pssSign(k, data)
      case Failure(e) => Failure(MakeExc(SigningError, "Digital signature generation failed: " + e.message,
                                         Some(map["cert_serial" := serial, "error_type" := e.typeName])))
      case Success(sig) => Success(p.b64encode(sig))
  }

  /** The text `sign_invoice` signs: the invoice hash, '|', and the SHA-256 hex of the XML. */
  function SignedPayload(p: Primitives, invoiceHash: string, xml: string): string {
    invoiceHash + "|" + Sha256Hex(p, xml)
  }

  /**
   * The signed text binds both inputs: for a hash without '|' it splits back
   * into the hash and a digest that decodes to SHA-256 of the XML.
   */
  lemma PayloadSplits(p: Primitives, invoiceHash: string, xml: string)
    requires !ContainsChar(invoiceHash, '|')
    ensures var parts := Split(SignedPayload(p, invoiceHash, xml), '|');
      |parts| == 2 && parts[0] == invoiceHash && HexText(parts[1]) && HexDecode(parts[1]) == p.sha256(xml)
  {
    var parts := [invoiceHash, Sha256Hex(p, xml)];
    SplitJoin(parts, '|');
    assert Join("|", parts[1..]) == Sha256Hex(p, xml);
  }

  /**
   * `verify_signature`: true exactly when the public key loads, the
   * signature decodes from Base64 and RSA-PSS verification accepts it; every
   * failure is the answer false, never an exception.
   */
  predicate VerifySignature(p: Primitives, data: string, signatureB64: string, publicKeyPem: string) {
    match p.loadPublicKey(publicKeyPem)
    case Failure(_) => false
    case Success(pk) =>
      match p.b64decode(signatureB64)
      case Failure(_) => false
      case Success(sig) => p.pssVerify(pk, sig, data)
  }

  /**
   * A signature made by `sign_data` verifies, provided Base64 decoding
   * inverts encoding and the public key's verification accepts the key's
   * signature.
   */
  lemma SignThenVerify(p: Primitives, key: PrivateKey, serial: string, data: string, publicKeyPem: string)
    requires p.pssSign(key, data).Success? && p.loadPublicKey(publicKeyPem).Success?
    requires var sig := p.pssSign(key, data).value;
      p.b64decode(p.b64encode(sig)) == Success(sig) && p.pssVerify(p.loadPublicKey(publicKeyPem).value, sig, data)
    ensures Signature(p, Some(key), serial, data).Success?
    ensures VerifySignature(p, data, Signature(p, Some(key), serial, data).value, publicKeyPem)
  {
  }

  class InvoiceCrypto {
    var privateKey: Option<PrivateKey>
    var certificate: Option<Certificate>
    var certMetadata: Option<CertMetadata>
    var certSerial: string
    /** Successful signatures so far, for the audit trail. */
    var signingCount: nat

    constructor(key: Option<PrivateKey>, cert: Option<Certificate>, meta: Option<CertMetadata>, serial: string)
      ensures privateKey == key && certificate == cert && certMetadata == meta && certSerial == serial
      ensures signingCount == 0
    {
      privateKey := key;
      certificate := cert;
      certMetadata := meta;
      certSerial := serial;
      signingCount := 0;
    }

    /** `sign_data`: each successful signature adds one to the counter; a failure leaves it. */
    method SignData(p: Primitives, data: string) returns (r: Result<string, Exc>)
      modifies this
      ensures r == Signature(p, privateKey, certSerial, data)
      ensures signingCount == old(signingCount) + (if r.Success? then 1 else 0)
      ensures privateKey == old(privateKey) && certSerial == old(certSerial)
      ensures certificate == old(certificate) && certMetadata == old(certMetadata)
    {
      if privateKey.None? {
        return Failure(MakeExc(SigningError, "No private key available for signing", Some(map["cert_serial" := certSerial])));
      }
      var signed := p.pssSign(privateKey.value, data);
      if signed.Failure? {
        return Failure(MakeExc(SigningError, "Digital signature generation failed: " + signed.error.message,
                               Some(map["cert_serial" := certSerial, "error_type" := signed.error.typeName])));
      }
      signingCount := signingCount + 1;
      r := Success(p.b64encode(signed.value));
    }

    /** `sign_invoice`: signs exactly the invoice hash joined by '|' to the XML's SHA-256 hex. */
    method SignInvoice(p: Primitives, invoiceHash: string, xml: string) returns (r: Result<string, Exc>)
      modifies this
      ensures r == Signature(p, privateKey, certSerial, SignedPayload(p, invoiceHash, xml))
      ensures signingCount == old(signingCount) + (if r.Success? then 1 else 0)
      ensures privateKey == old(privateKey) && certSerial == old(certSerial)
      ensures certificate == old(certificate) && certMetadata == old(certMetadata)
    {
      var xmlHash := Sha256Hex(p, xml);
      r := SignData(p, invoiceHash + "|" + xmlHash);
    }
  }

  /**
   * `InvoiceCrypto(private_key_pem, cert_pem, cert_serial)`: the certificate
   * is handled first, so a bad certificate wins over a bad key.
   */
  method NewInvoiceCrypto(p: Primitives, keyPem: Option<string>, certPem: Option<string>,
                          certSerial: Option<string>, now: int) returns (r: Result<InvoiceCrypto, Exc>)
    ensures var c := CertificateSetup(p, certPem, certSerial, now);
      c.Failure? ==> r == Failure(c.error)
    ensures var c := CertificateSetup(p, certPem, certSerial, now);
      c.Success? && KeySetup(p, keyPem, c.value.2).Failure? ==> r == Failure(KeySetup(p, keyPem, c.value.2).error)
    ensures var c := CertificateSetup(p, certPem, certSerial, now);
      r.Success? <==> c.Success? && KeySetup(p, keyPem, c.value.2).Success?
    ensures r.Success? ==> fresh(r.value) && r.value.signingCount == 0
    ensures r.Success? ==> var c := CertificateSetup(p, certPem, certSerial, now).value;
      r.value.certificate == c.0 && r.value.certMetadata == c.1 && r.value.certSerial == c.2
      && r.value.privateKey == KeySetup(p, keyPem, c.2).value
  {
    var c := CertificateSetup(p, certPem, certSerial, now);
    if c.Failure? {
      return Failure(c.error);
    }
    var k := KeySetup(p, keyPem, c.value.2);
    if k.Failure? {
      return Failure(k.error);
    }
    var obj := new InvoiceCrypto(k.value, c.value.0, c.value.1, c.value.2);
    r := Success(obj);
  }

  // ---------------------------------------------------------------- environment keys

  /** The two environment variables `os.getenv` reads; `None` is unset. */
  datatype Environment = Environment(signingPrivateKeyPem: Option<string>, signingCertificatePem: Option<string>)

  /** The `results` dictionary. */
  datatype EnvResults = EnvResults(privateKeyPresent: bool, certificatePresent: bool,
                                   warnings: seq<string>, mode: string, certificate: Option<CertMetadata>)

  const KeyMissingWarning := "SIGNING_PRIVATE_KEY_PEM not set - using mock keys"
  const CertMissingWarning := "SIGNING_CERTIFICATE_PEM not set - using mock certificate"

  function ConfigError(message: string, envVar: string, production: bool): Exc {
    MakeExc(ConfigurationError, message,
      Some(if production then map["env_var" := envVar, "mode" := "production"] else map["env_var" := envVar]))
  }

  /** The warning for a certificate with fewer than 30 days left. */
  function ExpiryWarning(m: CertMetadata): seq<string> {
    if m.daysUntilExpiry < 30 then ["Certificate expires in " + IntToString(m.daysUntilExpiry) + " days!"] else []
  }

  /** The certificate check, after the key check succeeded with `r` so far. */
  function CertificateCheck(p: Primitives, env: Environment, failOnMissing: bool, now: int, r: EnvResults)
    : Result<EnvResults, Exc>
  {
    if Truthy(env.signingCertificatePem) then
      var checked := match LoadCertificateFromPem(p, env.signingCertificatePem.value)
        case Failure(e) => Failure(e)
        case Success(c) => ValidateCertificate(p, c, now);
      match checked
      case Failure(e) =>
        Failure(ConfigError("Invalid SIGNING_CERTIFICATE_PEM: " + e.message, "SIGNING_CERTIFICATE_PEM", false))
      case Success(m) =>
        Success(r.(certificatePresent := true, certificate := Some(m), warnings := r.warnings + ExpiryWarning(m)))
    else if failOnMissing then
      Failure(ConfigError("SIGNING_CERTIFICATE_PEM is required for production deployment", "SIGNING_CERTIFICATE_PEM", true))
    else
      Success(r.(warnings := r.warnings + [CertMissingWarning]))
  }

  /** `validate_environment_keys(fail_on_missing)` with the environment and the clock given. */
  function EnvironmentCheck(p: Primitives, env: Environment, failOnMissing: bool, now: int): Result<EnvResults, Exc> {
    var start := EnvResults(false, false, [], if failOnMissing then "production" else "development", None);
    if Truthy(env.signingPrivateKeyPem) then
      match p.loadPrivateKey(env.signingPrivateKeyPem.value)
      case Failure(e) =>
        Failure(ConfigError("Invalid SIGNING_PRIVATE_KEY_PEM: " + e.message, "SIGNING_PRIVATE_KEY_PEM", false))
      case Success(_) => CertificateCheck(p, env, failOnMissing, now, start.(privateKeyPresent := true))
    else if failOnMissing then
      Failure(ConfigError("SIGNING_PRIVATE_KEY_PEM is required for production deployment", "SIGNING_PRIVATE_KEY_PEM", true))
    else
      CertificateCheck(p, env, failOnMissing, now, start.(warnings := [KeyMissingWarning]))
  }

  /** The check fills `results` and its warnings list step by step, raising on the first fatal problem. */
  method ValidateEnvironmentKeys(p: Primitives, env: Environment, failOnMissing: bool, now: int)
    returns (r: Result<EnvResults, Exc>)
    ensures r == EnvironmentCheck(p, env, failOnMissing, now)
  {
    var results := EnvResults(false, false, [], if failOnMissing then "production" else "development", None);
    if Truthy(env.signingPrivateKeyPem) {
      var key := p.loadPrivateKey(env.signingPrivateKeyPem.value);
      if key.Failure? {
        return Failure(ConfigError("Invalid SIGNING_PRIVATE_KEY_PEM: " + key.error.message, "SIGNING_PRIVATE_KEY_PEM", false));
      }
      results := results.(privateKeyPresent := true);
    } else {
      results := results.(warnings := [KeyMissingWarning]);
      if failOnMissing {
        return Failure(ConfigError("SIGNING_PRIVATE_KEY_PEM is required for production deployment", "SIGNING_PRIVATE_KEY_PEM", true));
      }
    }
    if Truthy(env.signingCertificatePem) {
      var loaded := LoadCertificateFromPem(p, env.signingCertificatePem.value);
      var checked := if loaded.Failure? then Failure(loaded.error) else ValidateCertificate(p, loaded.value, now);
      if checked.Failure? {
        return Failure(ConfigError("Invalid SIGNING_CERTIFICATE_PEM: " + checked.error.message, "SIGNING_CERTIFICATE_PEM", false));
      }
      results := results.(certificatePresent := true, certificate := Some(checked.value));
      if checked.value.daysUntilExpiry < 30 {
        results := results.(warnings := results.warnings + ["Certificate expires in " + IntToString(checked.value.daysUntilExpiry) + " days!"]);
      } else {
        assert results.warnings + [] == results.warnings;
      }
    } else {
      results := results.(warnings := results.warnings + [CertMissingWarning]);
      if failOnMissing {
        return Failure(ConfigError("SIGNING_CERTIFICATE_PEM is required for production deployment", "SIGNING_CERTIFICATE_PEM", true));
      }
    }
    r := Success(results);
  }

  /**
   * Production mode: a missing key is reported before anything about the
   * certificate, then a missing certificate; success means both are present
   * and the only possible warning is the expiry one.
   */
  lemma ProductionMode(p: Primitives, env: Environment, now: int)
    ensures var r := EnvironmentCheck(p, env, true, now);
      (!Truthy(env.signingPrivateKeyPem) ==>
         r.Failure? && r.error.cls == ConfigurationError
         && r.error.message == "SIGNING_PRIVATE_KEY_PEM is required for production deployment"
         && r.error.details["mode"] == "production")
      && (Truthy(env.signingPrivateKeyPem) && p.loadPrivateKey(env.signingPrivateKeyPem.value).Success?
          && !Truthy(env.signingCertificatePem) ==>
         r.Failure? && r.error.message == "SIGNING_CERTIFICATE_PEM is required for production deployment")
      && (r.Success? ==>
            r.value.mode == "production" && r.value.privateKeyPresent && r.value.certificatePresent
            && |r.value.warnings| <= 1)
  {
  }

  /**
   * Development mode: only keys or certificates that are present but
   * invalid fail; each absent one adds its warning, and a certificate with
   * fewer than 30 days left adds one more.
   */
  lemma DevelopmentMode(p: Primitives, env: Environment, now: int)
    ensures var r := EnvironmentCheck(p, env, false, now);
      var keyBad := Truthy(env.signingPrivateKeyPem) && p.loadPrivateKey(env.signingPrivateKeyPem.value).Failure?;
      var cert := if Truthy(env.signingCertificatePem) then LoadCertificateFromPem(p, env.signingCertificatePem.value) else Failure(MakeExc(CertificateError, "", None));
      var meta := if cert.Success? then ValidateCertificate(p, cert.value, now) else Failure(MakeExc(CertificateError, "", None));
      (r.Failure? <==> keyBad || (Truthy(env.signingCertificatePem) && meta.Failure?))
      && (r.Failure? ==> r.error.cls == ConfigurationError)
      && (r.Success? ==>
            r.value.mode == "development"
            && r.value.privateKeyPresent == Truthy(env.signingPrivateKeyPem)
            && r.value.certificatePresent == Truthy(env.signingCertificatePem)
            && r.value.warnings ==
               (if Truthy(env.signingPrivateKeyPem) then [] else [KeyMissingWarning])
               + (if Truthy(env.signingCertificatePem) then ExpiryWarning(meta.value) else [CertMissingWarning]))
  {
  }

  // ---------------------------------------------------------------- the shared instance

  /** The module-level `_crypto_instance`, created on first use. */
  class CryptoRegistry {
    var instance: Option<InvoiceCrypto>

    constructor()
      ensures instance.None?
    {
      instance := None;
    }

    /**
     * `get_crypto_instance`: an existing instance is returned whatever the
     * arguments; otherwise one is built, falsy arguments falling back to the
     * environment, and kept only if construction succeeds.
     */
    method GetCryptoInstance(p: Primitives, env: Environment, keyPem: Option<string>, certPem: Option<string>,
                             certSerial: Option<string>, now: int) returns (r: Result<InvoiceCrypto, Exc>)
      modifies this
      ensures old(instance).Some? ==> r == Success(old(instance).value) && instance == old(instance)
      ensures old(instance).None? && r.Success? ==> instance == Some(r.value) && fresh(r.value)
      ensures old(instance).None? && r.Failure? ==> instance.None?
      ensures old(instance).None? ==>
        var c := CertificateSetup(p, if Truthy(certPem) then certPem else env.signingCertificatePem, certSerial, now);
        (r.Success? <==> c.Success? && KeySetup(p, if Truthy(keyPem) then keyPem else env.signingPrivateKeyPem, c.value.2).Success?)
    {
      if instance.Some? {
        return Success(instance.value);
      }
      var key := if Truthy(keyPem) then keyPem else env.signingPrivateKeyPem;
      var cert := if Truthy(certPem) then certPem else env.signingCertificatePem;
      r := NewInvoiceCrypto(p, key, cert, certSerial, now);
      if r.Success? {
        instance := Some(r.value);
      }
    }
  }
}
