/** The core record types of the platform (clients, documents, filings, notifications). */
module Domain {
  import opened Common

  /** Dates are kept as the ISO text they are created from. */
  type Timestamp = string

  datatype Address = Address(street: string, city: string, state: string, pincode: string, country: string)

  datatype AccountType = Savings | Current

  datatype BankDetails = BankDetails(accountNumber: string, ifscCode: string, bankName: string, accountType: AccountType)

  datatype DocumentType = Form16 | SalarySlip | BankStatement | InvestmentProof | OtherDocument

  datatype DocumentStatus = Uploaded | DocumentProcessing | Processed | DocumentError

  /** A stored client document; its free-form `extractedData` is not modelled. */
  datatype Document = Document(
    id: string,
    name: string,
    docType: DocumentType,
    url: string,
    uploadedAt: Timestamp,
    status: DocumentStatus)

  datatype FilingType = Itr1 | Itr2 | Itr3 | Itr4

  datatype FilingStatus =
    | Draft
    | DataCollection
    | Processing
    | ReviewRequired
    | ReadyToFile
    | FilingInProgress
    | Filed
    | Verified
    | Completed

  /** The string value of a filing status, as stored in the source. */
  function FilingStatusText(s: FilingStatus): string
  {
    match s
    case Draft => "draft"
    case DataCollection => "data_collection"
    case Processing => "processing"
    case ReviewRequired => "review_required"
    case ReadyToFile => "ready_to_file"
    case FilingInProgress => "filing_in_progress"
    case Filed => "filed"
    case Verified => "verified"
    case Completed => "completed"
  }

  datatype StepStatus = StepPending | StepInProgress | StepCompleted | StepFailed

  /** The string value of a workflow step status, as stored in the source. */
  function StepStatusText(s: StepStatus): string
  {
    match s
    case StepPending => "pending"
    case StepInProgress => "in_progress"
    case StepCompleted => "completed"
    case StepFailed => "failed"
  }

  datatype WorkflowStep = WorkflowStep(
    id: string,
    name: string,
    status: StepStatus,
    startedAt: Option<Timestamp>,
    completedAt: Option<Timestamp>,
    notes: Option<string>,
    automationBot: Option<string>)

  datatype VerificationStatus = VerificationPending | VerificationDone | VerificationFailed

  /** Amounts are whole rupees. */
  datatype Filing = Filing(
    id: string,
    clientId: string,
    assessmentYear: string,
    filingType: FilingType,
    status: FilingStatus,
    taxableIncome: int,
    taxLiability: int,
    refundAmount: Option<int>,
    filedDate: Option<Timestamp>,
    acknowledgmentNumber: Option<string>,
    verificationStatus: VerificationStatus,
    createdAt: Timestamp,
    updatedAt: Timestamp,
    workflow: seq<WorkflowStep>)

  datatype ClientStatus = Active | Inactive | Pending

  datatype Client = Client(
    id: string,
    name: string,
    pan: string,
    aadhaar: Option<string>,
    email: string,
    phone: string,
    address: Address,
    bankDetails: Option<BankDetails>,
    documents: seq<Document>,
    filings: seq<Filing>,
    status: ClientStatus,
    createdAt: Timestamp,
    updatedAt: Timestamp)

  datatype NotificationType = Info | Success | Warning | Error
}
