/**
 * Transmission of invoices over the PEPPOL network through an accredited
 * access-point provider: the provider factory, the in-memory mock provider
 * that records what it was asked to send, and the decisions the Tradeshift
 * and Basware adapters take on the HTTP answer they receive. The HTTP
 * exchange itself and the clock are parameters.
 */
module Peppol {
  import opened Common

  /** `PeppolStatus`, a string enumeration. */
  datatype PeppolStatus = PENDING | SENT | DELIVERED | READ | REJECTED | FAILED

  function StatusValue(s: PeppolStatus): string {
    match s
    case PENDING => "PENDING"
    case SENT => "SENT"
    case DELIVERED => "DELIVERED"
    case READ => "READ"
    case REJECTED => "REJECTED"
    case FAILED => "FAILED"
  }

  /** Each status has its own string value. */
  lemma StatusValueInjective(a: PeppolStatus, b: PeppolStatus)
    ensures StatusValue(a) == StatusValue(b) ==> a == b
  {
  }

  /** `s.rstrip('/')` */
  function RStripSlash(s: string): (r: string)
    ensures |r| <= |s| && r == s[..|r|]
    ensures r == [] || r[|r| - 1] != '/'
    ensures forall k :: |r| <= k < |s| ==> s[k] == '/'
  {
    if s == [] || s[|s| - 1] != '/' then s else RStripSlash(s[..|s| - 1])
  }

  /** Stripping trailing slashes twice is stripping them once. */
  lemma RStripSlashIdempotent(s: string)
    ensures RStripSlash(RStripSlash(s)) == RStripSlash(s)
  {
  }

  /** The provider classes: the base class itself and its three subclasses. */
  datatype ProviderKind = Base | Tradeshift | Basware | Mock

  /** The `provider` value the results carry. */
  function ProviderName(k: ProviderKind): string {
    match k
    case Base => "base"
    case Tradeshift => "tradeshift"
    case Basware => "basware"
    case Mock => "mock"
  }

  /**
   * What the HTTP client returned: a response with its status code, the
   * document identifier and state read from its JSON body, and its raw
   * text; or an exception with its message.
   */
  datatype HttpOutcome =
    | Response(statusCode: int, documentId: Option<string>, reportedStatus: Option<string>, text: string)
    | Raised(message: string)

  /** One entry of the mock's `sent_invoices`. */
  datatype SentRecord = SentRecord(invoiceNumber: string, senderId: string, receiverId: string,
                                   xmlLength: nat, sentAt: string, status: PeppolStatus)

  /** The dictionary `send_invoice` returns; adapter responses' JSON bodies are not kept. */
  datatype SendResult = SendResult(success: bool, messageId: Option<string>, status: PeppolStatus,
                                   provider: string, error: Option<string>, sentAt: Option<string>,
                                   record: Option<SentRecord>)

  /** The dictionary `get_status` returns. */
  datatype StatusResult = StatusResult(success: bool, status: Option<string>, error: Option<string>,
                                       details: Option<SentRecord>)

  // ---------------------------------------------------------------- the HTTP adapters

  /** The status codes each adapter treats as an accepted submission. */
  predicate Accepted(k: ProviderKind, code: int) {
    (k == Tradeshift && code == 201) || (k == Basware && (code == 200 || code == 201))
  }

  /** The display name used in the adapters' error messages. */
  function AdapterLabel(k: ProviderKind): string {
    if k == Tradeshift then "Tradeshift" else "Basware"
  }

  /**
   * The adapters' `send_invoice` on the HTTP outcome: success with status
   * SENT exactly on an accepted code, otherwise FAILED with the code and the
   * response text, or with the exception's message.
   */
  function AdapterSend(k: ProviderKind, http: HttpOutcome, nowIso: string): (r: SendResult)
    requires k == Tradeshift || k == Basware
    ensures r.success <==> http.Response? && Accepted(k, http.statusCode)
    ensures r.status == (if r.success then SENT else FAILED)
    ensures r.provider == ProviderName(k)
    ensures r.success ==> r.messageId == http.documentId && r.error.None?
    ensures !r.success ==> r.error.Some? && r.messageId.None?
  {
    match http
    case Response(code, documentId, _, text) =>
      if Accepted(k, code) then
        SendResult(true, documentId, SENT, ProviderName(k), None, Some(nowIso), None)
      else
        SendResult(false, None, FAILED, ProviderName(k),
                   Some(AdapterLabel(k) + " API error: " + IntToString(code) + " - " + text), None, None)
    case Raised(message) =>
      SendResult(false, None, FAILED, ProviderName(k), Some("Exception sending to " + AdapterLabel(k) + ": " + message), None, None)
  }

  /** Basware also accepts 200, which Tradeshift reports as a failure. */
  lemma AcceptedCodes(documentId: Option<string>, reported: Option<string>, text: string, nowIso: string)
    ensures AdapterSend(Basware, Response(200, documentId, reported, text), nowIso).success
    ensures !AdapterSend(Tradeshift, Response(200, documentId, reported, text), nowIso).success
    ensures AdapterSend(Tradeshift, Response(201, documentId, reported, text), nowIso).success
  {
  }

  /**
   * The adapters' `get_status`: on 200 the reported state, PENDING when the
   * body has none; any other code or an exception is a failure.
   */
  function AdapterStatus(http: HttpOutcome): (r: StatusResult)
    ensures r.success <==> http.Response? && http.statusCode == 200
    ensures r.success ==> r.status == Some(GetOr(http.reportedStatus, "PENDING"))
    ensures !r.success ==> r.error.Some? && r.status.None?
  {
    match http
    case Response(code, _, reported, _) =>
      if code == 200 then StatusResult(true, Some(GetOr(reported, StatusValue(PENDING))), None, None)
      else StatusResult(false, None, Some("Status check failed: " + IntToString(code)), None)
    case Raised(message) => StatusResult(false, None, Some("Exception checking status: " + message), None)
  }

  // ---------------------------------------------------------------- the mock

  /** The mock's message identifier: the invoice number and the send time stamp. */
  function MockMessageId(invoiceNumber: string, stamp: string): string {
    "MOCK-" + invoiceNumber + "-" + stamp
  }

  /** The mock's `get_status` over its record of sent invoices. */
  function StatusIn(sent: map<string, SentRecord>, messageId: string): (r: StatusResult)
    ensures r.success <==> messageId in sent
    ensures r.success ==> r.status == Some(StatusValue(DELIVERED)) && r.details == Some(sent[messageId])
    ensures !r.success ==> r.error == Some("Message ID not found")
  {
    if messageId in sent then StatusResult(true, Some(StatusValue(DELIVERED)), None, Some(sent[messageId]))
    else StatusResult(false, None, Some("Message ID not found"), None)
  }

  /**
   * A message just recorded is reported delivered with its record, and
   * recording it changes the answer for no other identifier.
   */
  lemma RecordedIsDelivered(sent: map<string, SentRecord>, id: string, rec: SentRecord, other: string)
    ensures StatusIn(sent[id := rec], id) == StatusResult(true, Some("DELIVERED"), None, Some(rec))
    ensures other != id ==> StatusIn(sent[id := rec], other) == StatusIn(sent, other)
  {
  }

  // ---------------------------------------------------------------- the provider object

  class PeppolProvider {
    const kind: ProviderKind
    const baseUrl: string
    const apiKey: string
    const timeout: int
    /** The mock's `sent_invoices`, keyed by message identifier; empty for the other kinds. */
    var sentInvoices: map<string, SentRecord>

    /** The base constructor strips trailing slashes from the URL. */
    constructor(kind: ProviderKind, baseUrl: string, apiKey: string, timeout: int)
      ensures this.kind == kind && this.baseUrl == RStripSlash(baseUrl)
      ensures this.apiKey == apiKey && this.timeout == timeout
      ensures sentInvoices == map[]
    {
      this.kind := kind;
      this.baseUrl := RStripSlash(baseUrl);
      this.apiKey := apiKey;
      this.timeout := timeout;
      sentInvoices := map[];
    }

    /**
     * `send_invoice`. The mock always succeeds: it records the invoice under
     * a fresh message identifier, overwriting nothing else and not checking
     * for an earlier send of the same invoice. It reads the clock three times:
     * `stamp` for the identifier, `nowIso` for the stored record and
     * `replyIso` for the response.
     */
    method SendInvoice(xml: string, invoiceNumber: string, senderId: string, receiverId: string,
                       http: HttpOutcome, stamp: string, nowIso: string, replyIso: string) returns (r: Result<SendResult, string>)
      modifies this
      ensures kind == Base ==> r == Failure("Subclass must implement send_invoice")
      ensures kind == Tradeshift || kind == Basware ==> r == Success(AdapterSend(kind, http, nowIso))
      ensures kind != Mock ==> sentInvoices == old(sentInvoices)
      ensures kind == Mock ==>
        var id := MockMessageId(invoiceNumber, stamp);
        var rec := SentRecord(invoiceNumber, senderId, receiverId, |xml|, nowIso, SENT);
        sentInvoices == old(sentInvoices)[id := rec]
        && r == Success(SendResult(true, Some(id), SENT, "mock", None, Some(replyIso), Some(rec)))
    {
      match kind
      case Base =>
        r := Failure("Subclass must implement send_invoice");
      case Tradeshift =>
        r := Success(AdapterSend(kind, http, nowIso));
      case Basware =>
        r := Success(AdapterSend(kind, http, nowIso));
      case Mock =>
        var id := MockMessageId(invoiceNumber, stamp);
        var rec := SentRecord(invoiceNumber, senderId, receiverId, |xml|, nowIso, SENT);
        sentInvoices := sentInvoices[id := rec];
        r := Success(SendResult(true, Some(id), SENT, "mock", None, Some(replyIso), Some(sentInvoices[id])));
    }

    /** `get_status`: reads the record of sent invoices and never changes it. */
    function GetStatus(messageId: string, http: HttpOutcome): (r: Result<StatusResult, string>)
      reads this
      ensures kind == Base <==> r.Failure?
      ensures kind == Mock ==> r == Success(StatusIn(sentInvoices, messageId))
      ensures kind == Tradeshift || kind == Basware ==> r == Success(AdapterStatus(http))
    {
      match kind
      case Base => Failure("Subclass must implement get_status")
      case Mock => Success(StatusIn(sentInvoices, messageId))
      case _ => Success(AdapterStatus(http))
    }

    /**
     * `validate_participant_id`: only Tradeshift asks the network directory
     * (200 means known); Basware and the mock accept every identifier.
     */
    function ValidateParticipantId(participantId: string, http: HttpOutcome): (r: Result<bool, string>)
      reads this
      ensures kind == Base <==> r.Failure?
      ensures kind == Basware || kind == Mock ==> r == Success(true)
      ensures kind == Tradeshift ==> r == Success(http.Response? && http.statusCode == 200)
    {
      match kind
      case Base => Failure("Subclass must implement validate_participant_id")
      case Tradeshift => Success(http.Response? && http.statusCode == 200)
      case _ => Success(true)
    }
  }

  // ---------------------------------------------------------------- the factory

  /**
   * The class `create_provider` picks for a name, compared lower-cased:
   * mock needs nothing, the two real providers need a truthy URL and key,
   * and any other name is a ValueError.
   */
  function ProviderChoice(name: string, baseUrl: Option<string>, apiKey: Option<string>): (r: Result<ProviderKind, string>)
    ensures r.Success? ==> r.value != Base
    ensures r.Success? <==>
      (Lower(name) == "mock"
       || ((Lower(name) == "tradeshift" || Lower(name) == "basware") && Truthy(baseUrl) && Truthy(apiKey)))
    ensures r.Success? ==> ProviderName(r.value) == Lower(name)
  {
    var n := Lower(name);
    if n == "mock" then Success(Mock)
    else if n == "tradeshift" then
      if !Truthy(baseUrl) || !Truthy(apiKey) then Failure("Tradeshift requires base_url and api_key") else Success(Tradeshift)
    else if n == "basware" then
      if !Truthy(baseUrl) || !Truthy(apiKey) then Failure("Basware requires base_url and api_key") else Success(Basware)
    else Failure("Unknown provider: " + n + ". Use 'tradeshift', 'basware', or 'mock'")
  }

  /** `PeppolProviderFactory.create_provider` */
  method CreateProvider(name: string, baseUrl: Option<string>, apiKey: Option<string>, timeout: int)
    returns (r: Result<PeppolProvider, string>)
    ensures r.Success? <==> ProviderChoice(name, baseUrl, apiKey).Success?
    ensures r.Failure? ==> r.error == ProviderChoice(name, baseUrl, apiKey).error
    ensures r.Success? ==>
      fresh(r.value) && r.value.kind == ProviderChoice(name, baseUrl, apiKey).value && r.value.sentInvoices == map[]
    ensures r.Success? && r.value.kind == Mock ==>
      r.value.baseUrl == "http://mock" && r.value.apiKey == "mock-key" && r.value.timeout == 30
    ensures r.Success? && r.value.kind != Mock ==>
      r.value.baseUrl == RStripSlash(baseUrl.value) && r.value.apiKey == apiKey.value && r.value.timeout == timeout
  {
    var choice := ProviderChoice(name, baseUrl, apiKey);
    if choice.Failure? {
      return Failure(choice.error);
    }
    var provider: PeppolProvider;
    if choice.value == Mock {
      provider := new PeppolProvider(Mock, "http://mock", "mock-key", 30);
    } else {
      provider := new PeppolProvider(choice.value, baseUrl.value, apiKey.value, timeout);
    }
    r := Success(provider);
  }

  /** `send_invoice_via_peppol`: a fresh provider, then one send; factory errors propagate. */
  method SendInvoiceViaPeppol(xml: string, invoiceNumber: string, senderId: string, receiverId: string,
                              providerName: string, baseUrl: Option<string>, apiKey: Option<string>,
                              http: HttpOutcome, stamp: string, nowIso: string, replyIso: string) returns (r: Result<SendResult, string>)
    ensures ProviderChoice(providerName, baseUrl, apiKey).Failure? ==>
      r == Failure(ProviderChoice(providerName, baseUrl, apiKey).error)
    ensures ProviderChoice(providerName, baseUrl, apiKey) == Success(Mock) ==>
      r.Success? && r.value.success && r.value.messageId == Some(MockMessageId(invoiceNumber, stamp))
    ensures ProviderChoice(providerName, baseUrl, apiKey).Success? && ProviderChoice(providerName, baseUrl, apiKey).value != Mock ==>
      r == Success(AdapterSend(ProviderChoice(providerName, baseUrl, apiKey).value, http, nowIso))
  {
    var provider := CreateProvider(providerName, baseUrl, apiKey, 30);
    if provider.Failure? {
      return Failure(provider.error);
    }
    r := provider.value.SendInvoice(xml, invoiceNumber, senderId, receiverId, http, stamp, nowIso, replyIso);
  }
}
