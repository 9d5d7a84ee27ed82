/**
 * The company registration wizard of the Beam API: a session opened for a new
 * company, four steps (company information, business details, documents,
 * plan selection), the final submission, and the administrator's approval or
 * rejection.
 *
 * The database is a `RegistrationStore` object whose tables are fields: the
 * companies and the progress records keyed by company id, the uploaded
 * documents and the subscriptions in insertion order, and the plans keyed by
 * plan id. Each handler either fails with an HTTP error and leaves the store
 * as it was (the session is never committed), or commits its changes.
 * Random identifiers and today's date are parameters; dates are day numbers.
 */
module Registration {
  import opened Common
  import Vat

  // ---------------------------------------------------------------- enumerations

  datatype CompanyStatus = PendingReview | Active | Suspended | Rejected

  datatype SubscriptionStatus = Trial | Active | PastDue | Canceled

  datatype DocumentType = BusinessLicense | TrnCertificate | TradeLicense | Passport | EmiratesId

  /** The enumeration value of a document type. */
  function DocumentTypeValue(t: DocumentType): string {
    match t
    case BusinessLicense => "BUSINESS_LICENSE"
    case TrnCertificate => "TRN_CERTIFICATE"
    case TradeLicense => "TRADE_LICENSE"
    case Passport => "PASSPORT"
    case EmiratesId => "EMIRATES_ID"
  }

  datatype DocumentStatus = DocPendingReview | DocApproved | DocRejected

  /** An `HTTPException`: its status code and detail text. */
  datatype HttpError = HttpError(status: int, detail: string)

  // ---------------------------------------------------------------- records

  /** The fields step 1 stores on the company. */
  datatype CompanyInfo = CompanyInfo(
    legalName: string,
    businessType: string,
    registrationNumber: string,
    registrationDate: Date,
    email: string,
    phone: string,
    website: Option<string>)

  /** The fields step 2 stores on the company, the TRN aside. */
  datatype BusinessDetails = BusinessDetails(
    businessActivity: string,
    addressLine1: string,
    addressLine2: Option<string>,
    city: string,
    emirate: string,
    poBox: Option<string>,
    authorizedPersonName: string,
    authorizedPersonTitle: string,
    authorizedPersonEmail: string,
    authorizedPersonPhone: string)

  /** A row of the companies table; `None` is a column never written. */
  datatype Company = Company(
    status: CompanyStatus,
    country: string,
    trn: Option<string>,
    info: Option<CompanyInfo>,
    details: Option<BusinessDetails>)

  /** A row of the registration progress table. */
  datatype Progress = Progress(
    currentStep: nat,
    companyInfo: bool,
    businessDetails: bool,
    documents: bool,
    planSelection: bool,
    review: bool,
    completed: bool)

  /** A subscription plan; prices are in cents. */
  datatype Plan = Plan(
    name: string,
    description: string,
    priceMonthly: nat,
    priceYearly: nat,
    maxInvoicesPerMonth: Option<nat>,
    maxUsers: nat,
    maxPosDevices: nat,
    allowApiAccess: bool,
    allowBranding: bool,
    allowMultiCurrency: bool,
    prioritySupport: bool,
    active: bool)

  /** A company's subscription; the period bounds are day numbers. */
  datatype Subscription = Subscription(
    id: string,
    companyId: string,
    planId: string,
    status: SubscriptionStatus,
    billingCycle: string,
    periodStart: int,
    periodEnd: int,
    invoicesThisPeriod: nat)

  /** An uploaded document. */
  datatype Document = Document(
    id: string,
    companyId: string,
    docType: DocumentType,
    fileName: string,
    storedName: string,
    fileSize: nat,
    mimeType: string,
    status: DocumentStatus)

  // ---------------------------------------------------------------- TRN

  /** `is_valid_trn`: non-empty, fifteen characters, all of them digits. */
  predicate IsValidTrn(trn: string) {
    trn != [] && |trn| == 15 && AllDigits(trn)
  }

  /**
   * The wizard's TRN check is the VAT module's pattern check without the
   * trailing newline the pattern tolerates.
   */
  lemma TrnChecksAgree(trn: string)
    ensures IsValidTrn(trn) <==> Vat.IsValidTrn(trn) && |trn| == 15
    ensures Vat.IsValidTrn(trn) && !IsValidTrn(trn) ==> |trn| == 16 && trn[15] == '\n'
  {
  }

  // ---------------------------------------------------------------- default plans

  const DefaultPlans: map<string, Plan> := map[
    "plan_starter" := Plan("Starter", "Perfect for small businesses", 9900, 99000,
                           Some(100), 2, 1, true, false, false, false, true),
    "plan_professional" := Plan("Professional", "For growing businesses", 29900, 299000,
                                Some(500), 5, 3, true, true, true, false, true),
    "plan_enterprise" := Plan("Enterprise", "Unlimited for large organizations", 99900, 999000,
                              None, 50, 10, true, true, true, true, true)
  ]

  /** The seeded plans are active, and only the enterprise plan has no invoice limit. */
  lemma DefaultPlansShape()
    ensures DefaultPlans.Keys == {"plan_starter", "plan_professional", "plan_enterprise"}
    ensures forall id :: id in DefaultPlans ==> DefaultPlans[id].active
    ensures forall id :: id in DefaultPlans ==>
      (DefaultPlans[id].maxInvoicesPerMonth.None? <==> id == "plan_enterprise")
  {
  }

  // ---------------------------------------------------------------- wizard steps

  datatype Step = CompanyInfoStep | BusinessDetailsStep | DocumentsStep | PlanSelectionStep

  /** The number of a step in the wizard. */
  function StepNumber(s: Step): nat {
    match s
    case CompanyInfoStep => 1
    case BusinessDetailsStep => 2
    case DocumentsStep => 3
    case PlanSelectionStep => 4
  }

  /** The progress flag of a step. */
  function Flag(p: Progress, s: Step): bool {
    match s
    case CompanyInfoStep => p.companyInfo
    case BusinessDetailsStep => p.businessDetails
    case DocumentsStep => p.documents
    case PlanSelectionStep => p.planSelection
  }

  /** The progress record of a new session. */
  const InitialProgress := Progress(1, false, false, false, false, false, false)

  /**
   * What a completed step writes: its flag is set and `current_step` becomes
   * the next step's number, whatever it was before; nothing else changes.
   */
  function CompleteStep(p: Progress, s: Step): (q: Progress)
    ensures q.currentStep == StepNumber(s) + 1
    ensures Flag(q, s)
    ensures forall t :: t != s ==> Flag(q, t) == Flag(p, t)
    ensures q.review == p.review && q.completed == p.completed
  {
    match s
    case CompanyInfoStep => p.(companyInfo := true, currentStep := 2)
    case BusinessDetailsStep => p.(businessDetails := true, currentStep := 3)
    case DocumentsStep => p.(documents := true, currentStep := 4)
    case PlanSelectionStep => p.(planSelection := true, currentStep := 5)
  }

  /** The progress after completing the given steps in turn. */
  function Run(p: Progress, steps: seq<Step>): Progress
    decreases |steps|
  {
    if steps == [] then p else Run(CompleteStep(p, steps[0]), steps[1..])
  }

  /** A step's flag is set after a run exactly when it was set before or the run completed it. */
  lemma {:induction false} RunFlags(p: Progress, steps: seq<Step>, s: Step)
    ensures Flag(Run(p, steps), s) <==> Flag(p, s) || s in steps
    ensures Run(p, steps).review == p.review && Run(p, steps).completed == p.completed
    decreases |steps|
  {
    if steps != [] {
      RunFlags(CompleteStep(p, steps[0]), steps[1..], s);
      assert steps == [steps[0]] + steps[1..];
    }
  }

  /** After a run `current_step` follows the last step completed, not the furthest one. */
  lemma {:induction false} RunCurrentStep(p: Progress, steps: seq<Step>)
    requires steps != []
    ensures Run(p, steps).currentStep == StepNumber(steps[|steps| - 1]) + 1
    decreases |steps|
  {
    if |steps| > 1 {
      RunCurrentStep(CompleteStep(p, steps[0]), steps[1..]);
      assert steps[1..][|steps[1..]| - 1] == steps[|steps| - 1];
    }
  }

  /** Repeating step 1 after step 3 sends `current_step` back to 2 while step 3 stays done. */
  lemma RedoingStepOneRewindsCurrentStep()
    ensures var p := Run(InitialProgress, [CompanyInfoStep, BusinessDetailsStep, DocumentsStep, CompanyInfoStep]);
      p.currentStep == 2 && p.documents
  {
    var steps := [CompanyInfoStep, BusinessDetailsStep, DocumentsStep, CompanyInfoStep];
    RunCurrentStep(InitialProgress, steps);
    RunFlags(InitialProgress, steps, DocumentsStep);
  }

  /** The finalisation check: all four step flags. */
  predicate AllStepsDone(p: Progress) {
    p.companyInfo && p.businessDetails && p.documents && p.planSelection
  }

  /**
   * `finalize_registration` on an existing progress record: it fails unless
   * every step is done, and then marks the review step and the registration
   * completed, leaving `current_step` and the step flags alone.
   */
  function Finalize(p: Progress): (r: Result<Progress, HttpError>)
    ensures r.Success? <==> forall s :: Flag(p, s)
    ensures r.Failure? ==> r.error == HttpError(400, "All previous steps must be completed")
    ensures r.Success? ==> r.value.review && r.value.completed && r.value.currentStep == p.currentStep
    ensures r.Success? ==> forall s :: Flag(r.value, s)
  {
    if !AllStepsDone(p) then
      assert !Flag(p, CompanyInfoStep) || !Flag(p, BusinessDetailsStep)
        || !Flag(p, DocumentsStep) || !Flag(p, PlanSelectionStep);
      Failure(HttpError(400, "All previous steps must be completed"))
    else Success(p.(review := true, completed := true))
  }

  /** Whatever order the steps are taken in, once all four are done submission succeeds. */
  lemma FinalizeAfterAllSteps(steps: seq<Step>)
    requires forall s :: s in steps
    ensures Finalize(Run(InitialProgress, steps)).Success?
  {
    forall s ensures Flag(Run(InitialProgress, steps), s) {
      RunFlags(InitialProgress, steps, s);
    }
  }

  /** Submission fails as long as some step was never completed. */
  lemma FinalizeNeedsEveryStep(steps: seq<Step>, missing: Step)
    requires missing !in steps
    ensures Finalize(Run(InitialProgress, steps)).Failure?
  {
    RunFlags(InitialProgress, steps, missing);
  }

  // ---------------------------------------------------------------- documents

  const RequiredDocuments: seq<DocumentType> := [BusinessLicense, TrnCertificate]

  const AllowedContentTypes: seq<string> := ["application/pdf", "image/jpeg", "image/png", "image/jpg"]

  const MaxUploadBytes: nat := 10 * 1024 * 1024

  /** The types of the documents uploaded for a company, in upload order. */
  function UploadedTypes(docs: seq<Document>, companyId: string): (r: seq<DocumentType>)
    ensures forall t :: t in r <==> exists d :: d in docs && d.companyId == companyId && d.docType == t
  {
    if docs == [] then []
    else
      var rest := UploadedTypes(docs[1..], companyId);
      assert docs == [docs[0]] + docs[1..];
      if docs[0].companyId == companyId then [docs[0].docType] + rest else rest
  }

  /**
   * The required document types not among the uploaded ones, in the order
   * the requirement lists them.
   */
  function MissingDocuments(uploaded: seq<DocumentType>): (r: seq<DocumentType>)
    ensures forall t :: t in r <==> t in RequiredDocuments && t !in uploaded
    ensures r == [] <==> BusinessLicense in uploaded && TrnCertificate in uploaded
    ensures |r| == 2 ==> r == RequiredDocuments
  {
    (if BusinessLicense in uploaded then [] else [BusinessLicense])
    + (if TrnCertificate in uploaded then [] else [TrnCertificate])
  }

  /** The detail of the error step 3 raises, naming the missing types. */
  function MissingDocumentsDetail(missing: seq<DocumentType>): string {
    "Required documents missing: " + Join(", ", TypeValues(missing))
  }

  /** The enumeration values of a list of document types. */
  function TypeValues(ts: seq<DocumentType>): seq<string> {
    if ts == [] then [] else [DocumentTypeValue(ts[0])] + TypeValues(ts[1..])
  }

  /** With nothing uploaded, step 3 names both required types, business licence first. */
  lemma NothingUploadedDetail()
    ensures MissingDocuments([]) == RequiredDocuments
    ensures TypeValues(RequiredDocuments) == ["BUSINESS_LICENSE", "TRN_CERTIFICATE"]
  {
    assert RequiredDocuments[1..] == [TrnCertificate];
    assert RequiredDocuments[1..][1..] == [];
  }

  /**
   * The checks on an upload, content type first: `None` when the file is
   * accepted, otherwise the error.
   */
  function CheckUpload(contentType: string, size: nat): (r: Option<HttpError>)
    ensures r.None? <==> contentType in AllowedContentTypes && size <= MaxUploadBytes
    ensures contentType !in AllowedContentTypes ==> r == Some(HttpError(400, "Invalid file type. Allowed: PDF, JPEG, PNG"))
    ensures contentType in AllowedContentTypes && size > MaxUploadBytes ==> r == Some(HttpError(400, "File size exceeds 10MB limit"))
  {
    if contentType !in AllowedContentTypes then Some(HttpError(400, "Invalid file type. Allowed: PDF, JPEG, PNG"))
    else if size > 10 * 1024 * 1024 then Some(HttpError(400, "File size exceeds 10MB limit"))
    else None
  }

  /** A file of exactly ten mebibytes is accepted; one byte more is not. */
  lemma UploadSizeBoundary()
    ensures CheckUpload("application/pdf", 10485760).None?
    ensures CheckUpload("application/pdf", 10485761).Some?
  {
  }

  /** The extension of an uploaded file name: the text after its last dot, or "pdf" when it has none. */
  function Extension(fileName: string): (ext: string)
    ensures !ContainsChar(ext, '.')
    ensures !ContainsChar(fileName, '.') ==> ext == "pdf"
  {
    if ContainsChar(fileName, '.') then
      var parts := Split(fileName, '.');
      assert parts[|parts| - 1] in parts;
      parts[|parts| - 1]
    else "pdf"
  }

  /** The name a document is stored under: the file id, the type's value, and the extension. */
  function StoredName(fileId: string, t: DocumentType, fileName: string): string {
    fileId + "_" + DocumentTypeValue(t) + "." + Extension(fileName)
  }

  /** A dotted name keeps its last segment as extension, however many dots come before it. */
  lemma ExtensionOfDottedName(stem: string, ext: string)
    requires !ContainsChar(ext, '.')
    ensures Extension(stem + "." + ext) == ext
  {
    var f := stem + "." + ext;
    assert f[|stem|] == '.';
    SplitAppend(stem, '.', ext);
  }

  /** Concrete names with several dots: only the last segment counts. */
  lemma MultiDotExtensions()
    ensures Extension("scan.v2.pdf") == "pdf"
    ensures Extension("a.tar.gz") == "gz"
  {
    ExtensionOfDottedName("scan.v2", "pdf");
    assert "scan.v2" + "." + "pdf" == "scan.v2.pdf";
    ExtensionOfDottedName("a.tar", "gz");
    assert "a.tar" + "." + "gz" == "a.tar.gz";
  }

  // ---------------------------------------------------------------- subscriptions

  const TrialDays := 14

  /** Index of the first subscription of a company, or |subs| when it has none. */
  function FirstSubscriptionOf(subs: seq<Subscription>, companyId: string): (k: nat)
    ensures k <= |subs|
    ensures forall i :: 0 <= i < k ==> subs[i].companyId != companyId
    ensures k < |subs| ==> subs[k].companyId == companyId
  {
    if subs == [] then 0
    else if subs[0].companyId == companyId then 0
    else 1 + FirstSubscriptionOf(subs[1..], companyId)
  }

  /** `company.legal_name` in an f-string: "None" until step 1 has stored it. */
  function LegalNameText(c: Company): string {
    if c.info.Some? then c.info.value.legalName else "None"
  }

  // ---------------------------------------------------------------- the store

  class RegistrationStore {
    var companies: map<string, Company>
    /** The progress records, keyed by their company id (the column is unique). */
    var progress: map<string, Progress>
    var plans: map<string, Plan>
    var subscriptions: seq<Subscription>
    var documents: seq<Document>

    /**
     * Every company has its progress record and the other way round, and
     * every document and subscription belongs to a known company.
     */
    predicate Valid()
      reads this
    {
      companies.Keys == progress.Keys
      && (forall d :: d in documents ==> d.companyId in companies)
      && (forall s :: s in subscriptions ==> s.companyId in companies)
    }

    constructor()
      ensures Valid()
      ensures companies == map[] && progress == map[] && plans == map[]
      ensures subscriptions == [] && documents == []
    {
      companies, progress, plans := map[], map[], map[];
      subscriptions, documents := [], [];
    }

    /** `seed_plans`: the three default plans, unless some plan exists already. */
    method SeedPlans()
      requires Valid()
      modifies this
      ensures Valid()
      ensures old(plans) != map[] ==> plans == old(plans)
      ensures old(plans) == map[] ==> plans == DefaultPlans
      ensures plans != map[]
      ensures companies == old(companies) && progress == old(progress)
      ensures subscriptions == old(subscriptions) && documents == old(documents)
    {
      if |plans| > 0 {
        return;
      }
      plans := DefaultPlans;
      assert "plan_starter" in plans;
    }

    /**
     * `init_registration` with the generated company and progress ids: a
     * company pending review in the AE country, and its progress at step 1.
     */
    method InitRegistration(companyId: string) returns (id: string, currentStep: nat)
      requires Valid()
      requires companyId !in companies
      modifies this
      ensures Valid()
      ensures id == companyId && currentStep == 1
      ensures companies == old(companies)[companyId := Company(PendingReview, "AE", None, None, None)]
      ensures progress == old(progress)[companyId := InitialProgress]
      ensures plans == old(plans) && subscriptions == old(subscriptions) && documents == old(documents)
    {
      companies := companies[companyId := Company(PendingReview, "AE", None, None, None)];
      progress := progress[companyId := InitialProgress];
      id, currentStep := companyId, 1;
    }

    /**
     * `register_step1`: the payload is checked first (a legal name of 2 to
     * 255 characters), then the session must exist; it stores the company
     * information and completes step 1.
     */
    method RegisterStep1(companyId: string, payload: CompanyInfo) returns (r: Result<nat, HttpError>)
      requires Valid()
      modifies this
      ensures Valid()
      ensures !(2 <= |payload.legalName| <= 255) ==> r == Failure(HttpError(422, "legal_name"))
      ensures 2 <= |payload.legalName| <= 255 && companyId !in old(companies) ==>
        r == Failure(HttpError(404, "Registration session not found"))
      ensures r.Failure? ==> companies == old(companies) && progress == old(progress)
      ensures r.Success? <==> 2 <= |payload.legalName| <= 255 && companyId in old(companies)
      ensures r.Success? ==> (
        r.value == 2
        && companies == old(companies)[companyId := old(companies)[companyId].(info := Some(payload))]
        && progress == old(progress)[companyId := CompleteStep(old(progress)[companyId], CompanyInfoStep)])
      ensures plans == old(plans) && subscriptions == old(subscriptions) && documents == old(documents)
    {
      if !(2 <= |payload.legalName| <= 255) {
        return Failure(HttpError(422, "legal_name"));
      }
      if companyId !in companies {
        return Failure(HttpError(404, "Registration session not found"));
      }
      companies := companies[companyId := companies[companyId].(info := Some(payload))];
      progress := progress[companyId := CompleteStep(progress[companyId], CompanyInfoStep)];
      r := Success(2);
    }

    /**
     * `register_step2`: stores the business details; a TRN that is given
     * and not empty must pass `IsValidTrn` and is then stored, an empty or
     * absent one leaves the company's TRN alone.
     */
    method RegisterStep2(companyId: string, payload: BusinessDetails, trn: Option<string>)
      returns (r: Result<nat, HttpError>)
      requires Valid()
      modifies this
      ensures Valid()
      ensures companyId !in old(companies) ==> r == Failure(HttpError(404, "Registration session not found"))
      ensures companyId in old(companies) && Truthy(trn) && !IsValidTrn(trn.value) ==>
        r == Failure(HttpError(400, "Invalid TRN format (must be 15 digits)"))
      ensures r.Failure? ==> companies == old(companies) && progress == old(progress)
      ensures r.Success? <==> companyId in old(companies) && (Truthy(trn) ==> IsValidTrn(trn.value))
      ensures r.Success? ==> (
        r.value == 3
        && companies == old(companies)[companyId := old(companies)[companyId].(
             details := Some(payload),
             trn := if Truthy(trn) then trn else old(companies)[companyId].trn)]
        && progress == old(progress)[companyId := CompleteStep(old(progress)[companyId], BusinessDetailsStep)])
      ensures plans == old(plans) && subscriptions == old(subscriptions) && documents == old(documents)
    {
      if companyId !in companies {
        return Failure(HttpError(404, "Registration session not found"));
      }
      var company := companies[companyId].(details := Some(payload));
      if Truthy(trn) {
        if !IsValidTrn(trn.value) {
          return Failure(HttpError(400, "Invalid TRN format (must be 15 digits)"));
        }
        company := company.(trn := trn);
      }
      companies := companies[companyId := company];
      progress := progress[companyId := CompleteStep(progress[companyId], BusinessDetailsStep)];
      r := Success(3);
    }

    /**
     * `upload_document` with the generated ids: the session must exist and
     * the file pass `CheckUpload`; the document is recorded pending review.
     */
    method UploadDocument(companyId: string, docType: DocumentType, fileName: string, contentType: string,
                          size: nat, docId: string, fileId: string)
      returns (r: Result<Document, HttpError>)
      requires Valid()
      modifies this
      ensures Valid()
      ensures companyId !in old(companies) ==> r == Failure(HttpError(404, "Registration session not found"))
      ensures companyId in old(companies) && CheckUpload(contentType, size).Some? ==>
        r == Failure(CheckUpload(contentType, size).value)
      ensures r.Success? <==> companyId in old(companies) && CheckUpload(contentType, size).None?
      ensures r.Failure? ==> documents == old(documents)
      ensures r.Success? ==>
        r.value == Document(docId, companyId, docType, fileName, StoredName(fileId, docType, fileName),
                            size, contentType, DocPendingReview)
        && documents == old(documents) + [r.value]
      ensures companies == old(companies) && progress == old(progress)
      ensures plans == old(plans) && subscriptions == old(subscriptions)
    {
      if companyId !in companies {
        return Failure(HttpError(404, "Registration session not found"));
      }
      var problem := CheckUpload(contentType, size);
      if problem.Some? {
        return Failure(problem.value);
      }
      var doc := Document(docId, companyId, docType, fileName, StoredName(fileId, docType, fileName),
                          size, contentType, DocPendingReview);
      documents := documents + [doc];
      r := Success(doc);
    }

    /**
     * `register_step3`: completes step 3 once both required types have been
     * uploaded for the company, otherwise names the missing ones. An unknown
     * company has no documents and so always fails the check.
     */
    method RegisterStep3(companyId: string) returns (r: Result<nat, HttpError>)
      requires Valid()
      modifies this
      ensures Valid()
      ensures var missing := MissingDocuments(UploadedTypes(old(documents), companyId));
        (missing != [] ==> r == Failure(HttpError(400, MissingDocumentsDetail(missing))))
        && (missing == [] ==> (
              r == Success(4) && companyId in old(progress)
              && progress == old(progress)[companyId := CompleteStep(old(progress)[companyId], DocumentsStep)]))
      ensures r.Failure? ==> progress == old(progress)
      ensures companies == old(companies) && plans == old(plans)
      ensures subscriptions == old(subscriptions) && documents == old(documents)
    {
      var missing := MissingDocuments(UploadedTypes(documents, companyId));
      if missing != [] {
        return Failure(HttpError(400, MissingDocumentsDetail(missing)));
      }
      assert BusinessLicense in UploadedTypes(documents, companyId);
      progress := progress[companyId := CompleteStep(progress[companyId], DocumentsStep)];
      r := Success(4);
    }

    /**
     * `register_step4` with the generated subscription id and two readings of
     * today's day number, one for each end of the period (they differ when
     * the request crosses midnight): the company must exist and the plan
     * exist and be active; it adds a trial subscription ending fourteen days
     * after the second reading.
     */
    method RegisterStep4(companyId: string, planId: string, billingCycle: string, subscriptionId: string,
                         today: int, endToday: int)
      returns (r: Result<nat, HttpError>)
      requires Valid()
      modifies this
      ensures Valid()
      ensures companyId !in old(companies) ==> r == Failure(HttpError(404, "Company not found"))
      ensures companyId in old(companies) && !(planId in old(plans) && old(plans)[planId].active) ==>
        r == Failure(HttpError(404, "Plan not found or inactive"))
      ensures r.Success? <==> companyId in old(companies) && planId in old(plans) && old(plans)[planId].active
      ensures r.Failure? ==> progress == old(progress) && subscriptions == old(subscriptions)
      ensures r.Success? ==> (
        r.value == 5
        && subscriptions == old(subscriptions)
           + [Subscription(subscriptionId, companyId, planId, Trial, billingCycle, today, endToday + TrialDays, 0)]
        && progress == old(progress)[companyId := CompleteStep(old(progress)[companyId], PlanSelectionStep)])
      ensures companies == old(companies) && plans == old(plans) && documents == old(documents)
    {
      if companyId !in companies {
        return Failure(HttpError(404, "Company not found"));
      }
      if planId !in plans || !plans[planId].active {
        return Failure(HttpError(404, "Plan not found or inactive"));
      }
      var subscription := Subscription(subscriptionId, companyId, planId, Trial, billingCycle, today, endToday + TrialDays, 0);
      subscriptions := subscriptions + [subscription];
      progress := progress[companyId := CompleteStep(progress[companyId], PlanSelectionStep)];
      r := Success(5);
    }

    /**
     * `finalize_registration`: an unknown registration is a 404, otherwise
     * the progress record goes through `Finalize`. The company's status is
     * not touched: it stays pending review until an administrator acts.
     */
    method FinalizeRegistration(companyId: string) returns (r: Result<CompanyStatus, HttpError>)
      requires Valid()
      modifies this
      ensures Valid()
      ensures companyId !in old(progress) ==> r == Failure(HttpError(404, "Registration not found"))
      ensures companyId in old(progress) ==> match Finalize(old(progress)[companyId])
        case Failure(e) => r == Failure(e) && progress == old(progress)
        case Success(p) => r == Success(PendingReview) && progress == old(progress)[companyId := p]
      ensures companyId !in old(progress) ==> progress == old(progress)
      ensures companies == old(companies) && plans == old(plans)
      ensures subscriptions == old(subscriptions) && documents == old(documents)
    {
      if companyId !in progress {
        return Failure(HttpError(404, "Registration not found"));
      }
      var outcome := Finalize(progress[companyId]);
      match outcome
      case Failure(e) =>
        r := Failure(e);
      case Success(p) =>
        progress := progress[companyId := p];
        r := Success(PendingReview);
    }

    /**
     * `approve_company`: the company becomes active, and so does its first
     * subscription when it has one. Approval does not look at the progress
     * record: an unfinished registration can be approved.
     */
    method ApproveCompany(companyId: string) returns (r: Result<string, HttpError>)
      requires Valid()
      modifies this
      ensures Valid()
      ensures companyId !in old(companies) ==> (
        r == Failure(HttpError(404, "Company not found"))
        && companies == old(companies) && subscriptions == old(subscriptions))
      ensures companyId in old(companies) ==>
        r == Success("Company '" + LegalNameText(old(companies)[companyId]) + "' approved and activated")
        && companies == old(companies)[companyId := old(companies)[companyId].(status := CompanyStatus.Active)]
      ensures companyId in old(companies) ==>
        var k := FirstSubscriptionOf(old(subscriptions), companyId);
        if k < |old(subscriptions)|
        then subscriptions == old(subscriptions)[k := old(subscriptions)[k].(status := SubscriptionStatus.Active)]
        else subscriptions == old(subscriptions)
      ensures progress == old(progress) && plans == old(plans) && documents == old(documents)
    {
      if companyId !in companies {
        return Failure(HttpError(404, "Company not found"));
      }
      var company := companies[companyId];
      companies := companies[companyId := company.(status := CompanyStatus.Active)];
      var k := FirstSubscriptionOf(subscriptions, companyId);
      if k < |subscriptions| {
        subscriptions := subscriptions[k := subscriptions[k].(status := SubscriptionStatus.Active)];
        assert forall s :: s in subscriptions ==> s.companyId in companies by {
          forall s | s in subscriptions ensures s.companyId in companies {
            var i :| 0 <= i < |subscriptions| && subscriptions[i] == s;
            assert i == k || s == old(subscriptions)[i];
          }
        }
      }
      r := Success("Company '" + LegalNameText(company) + "' approved and activated");
    }

    /** `reject_company`: the company becomes rejected; the reason is echoed back. */
    method RejectCompany(companyId: string, reason: string) returns (r: Result<(string, string), HttpError>)
      requires Valid()
      modifies this
      ensures Valid()
      ensures companyId !in old(companies) ==> (
        r == Failure(HttpError(404, "Company not found")) && companies == old(companies))
      ensures companyId in old(companies) ==>
        r == Success(("Company '" + LegalNameText(old(companies)[companyId]) + "' rejected", reason))
        && companies == old(companies)[companyId := old(companies)[companyId].(status := Rejected)]
      ensures progress == old(progress) && plans == old(plans)
      ensures subscriptions == old(subscriptions) && documents == old(documents)
    {
      if companyId !in companies {
        return Failure(HttpError(404, "Company not found"));
      }
      var company := companies[companyId];
      companies := companies[companyId := company.(status := Rejected)];
      r := Success(("Company '" + LegalNameText(company) + "' rejected", reason));
    }
  }
}
