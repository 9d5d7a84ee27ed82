/**
 * The domain error taxonomy: a small class hierarchy rooted at
 * InvoLinksException, each family carrying an HTTP status as a class
 * attribute that subclasses inherit, plus the conversion of an error into
 * the JSON body and status code returned to API clients.
 */
module Exceptions {
  import opened Common

  /** The exception classes of the hierarchy. */
  datatype ErrorClass =
    | InvoLinksException
    | ValidationError
    | InvoiceValidationError
    | CryptoError
    | SigningError
    | CertificateError
    | XMLGenerationError
    | PeppolError
    | PeppolProviderError
    | PeppolTransmissionError
    | ConfigurationError

  /** Distance from the root of the hierarchy. */
  function Depth(c: ErrorClass): nat {
    match c
    case InvoLinksException => 0
    case ValidationError | CryptoError | XMLGenerationError | PeppolError | ConfigurationError => 1
    case _ => 2
  }

  /** The direct base class; the root has none inside the hierarchy. */
  function Parent(c: ErrorClass): (p: Option<ErrorClass>)
    ensures p.None? <==> c == InvoLinksException
    ensures p.Some? ==> Depth(p.value) + 1 == Depth(c)
  {
    match c
    case InvoLinksException => None
    case ValidationError | CryptoError | XMLGenerationError | PeppolError | ConfigurationError => Some(InvoLinksException)
    case InvoiceValidationError => Some(ValidationError)
    case SigningError | CertificateError => Some(CryptoError)
    case PeppolProviderError | PeppolTransmissionError => Some(PeppolError)
  }

  /** `issubclass(c, base)`: `base` is `c` or one of its ancestors. */
  predicate IsSubclass(c: ErrorClass, base: ErrorClass)
    decreases Depth(c)
  {
    c == base || (Parent(c).Some? && IsSubclass(Parent(c).value, base))
  }

  /** `self.__class__.__name__` */
  function ClassName(c: ErrorClass): string {
    match c
    case InvoLinksException => "InvoLinksException"
    case ValidationError => "ValidationError"
    case InvoiceValidationError => "InvoiceValidationError"
    case CryptoError => "CryptoError"
    case SigningError => "SigningError"
    case CertificateError => "CertificateError"
    case XMLGenerationError => "XMLGenerationError"
    case PeppolError => "PeppolError"
    case PeppolProviderError => "PeppolProviderError"
    case PeppolTransmissionError => "PeppolTransmissionError"
    case ConfigurationError => "ConfigurationError"
  }

  /** The `http_status` a class body assigns itself, if it assigns one. */
  function DeclaredStatus(c: ErrorClass): Option<int> {
    match c
    case ValidationError => Some(400)
    case CryptoError | XMLGenerationError | ConfigurationError => Some(500)
    case PeppolError => Some(502)
    case _ => None
  }

  /** Attribute lookup of `http_status` along the base classes. */
  function HttpStatus(c: ErrorClass): (s: Option<int>)
    ensures DeclaredStatus(c).Some? ==> s == DeclaredStatus(c)
    ensures DeclaredStatus(c).None? && Parent(c).Some? ==> s == HttpStatus(Parent(c).value)
    ensures c == InvoLinksException ==> s.None?
    decreases Depth(c)
  {
    if DeclaredStatus(c).Some? then DeclaredStatus(c)
    else match Parent(c)
      case None => None
      case Some(p) => HttpStatus(p)
  }

  /** Details attached to an error: a string-keyed dictionary. */
  type Details = map<string, string>

  /** An instance of one of the classes, with its message and details. */
  datatype Exc = Exc(cls: ErrorClass, message: string, details: Details)

  /** The constructor: `details or {}` turns an absent dictionary into an empty one. */
  function MakeExc(cls: ErrorClass, message: string, details: Option<Details>): (e: Exc)
    ensures e.cls == cls && e.message == message
    ensures details.None? ==> e.details == map[]
    ensures details.Some? ==> e.details == details.value
  {
    Exc(cls, message, if details.Some? && details.value != map[] then details.value else map[])
  }

  /** The structured error body: class name, message and details. */
  datatype ErrorDict = ErrorDict(error: string, message: string, details: Details)

  function ToDict(e: Exc): (d: ErrorDict)
    ensures d.message == e.message && d.details == e.details
    ensures d.error == ClassName(e.cls)
  {
    ErrorDict(ClassName(e.cls), e.message, e.details)
  }

  datatype HttpResponse = HttpResponse(statusCode: int, detail: ErrorDict)

  /** The status is the inherited `http_status`, or 500 when the class has none. */
  function ExceptionToHttpResponse(e: Exc): (r: HttpResponse)
    ensures r.detail == ToDict(e)
    ensures HttpStatus(e.cls).Some? ==> r.statusCode == HttpStatus(e.cls).value
    ensures HttpStatus(e.cls).None? ==> r.statusCode == 500
  {
    HttpResponse(GetOrInt(HttpStatus(e.cls), 500), ToDict(e))
  }

  /** Every class name is distinct, so the body identifies the class. */
  lemma ClassNameInjective(a: ErrorClass, b: ErrorClass)
    requires ClassName(a) == ClassName(b)
    ensures a == b
  {
  }

  /** `to_dict` loses nothing: two errors with the same body are the same error. */
  lemma ToDictInjective(e1: Exc, e2: Exc)
    requires ToDict(e1) == ToDict(e2)
    ensures e1 == e2
  {
    ClassNameInjective(e1.cls, e2.cls);
  }

  /**
   * The response status by family: the validation family answers 400, the
   * PEPPOL family 502, and every other class (the bare base class included)
   * 500.
   */
  lemma {:induction false} StatusByFamily(e: Exc)
    ensures IsSubclass(e.cls, ValidationError) ==> ExceptionToHttpResponse(e).statusCode == 400
    ensures IsSubclass(e.cls, PeppolError) ==> ExceptionToHttpResponse(e).statusCode == 502
    ensures (!IsSubclass(e.cls, ValidationError) && !IsSubclass(e.cls, PeppolError))
      ==> ExceptionToHttpResponse(e).statusCode == 500
  {
    match e.cls
    case InvoiceValidationError =>
      assert HttpStatus(e.cls) == HttpStatus(ValidationError);
    case SigningError | CertificateError =>
      assert HttpStatus(e.cls) == HttpStatus(CryptoError);
    case PeppolProviderError | PeppolTransmissionError =>
      assert HttpStatus(e.cls) == HttpStatus(PeppolError);
    case _ =>
  }

  /** Every response carries one of the three statuses the hierarchy uses. */
  lemma StatusRange(e: Exc)
    ensures ExceptionToHttpResponse(e).statusCode in {400, 500, 502}
  {
    StatusByFamily(e);
  }
}
