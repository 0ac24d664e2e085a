/**
 * Types of the automation side: bots, their executions and logs, and the
 * document templates with their validation rules. The rules are only
 * declared in the application; the predicates here give them a meaning.
 */
module Automation {
  import opened Common
  import opened Seqs
  import opened Text
  import opened Domain

  datatype BotType =
    | DataIntake
    | Preprocessing
    | TaxComputation
    | PortalNavigation
    | FilingBot
    | Verification
    | Reporting

  /** The string value of a bot type, as stored in the source. */
  function BotTypeText(t: BotType): string
  {
    match t
    case DataIntake => "data_intake"
    case Preprocessing => "preprocessing"
    case TaxComputation => "tax_computation"
    case PortalNavigation => "portal_navigation"
    case FilingBot => "filing"
    case Verification => "verification"
    case Reporting => "reporting"
  }

  datatype BotStatus = Idle | Running | Paused | BotError | Maintenance

  datatype BotConfiguration = BotConfiguration(
    autoStart: bool,
    retryAttempts: int,
    timeoutMinutes: int,
    notifyOnError: bool,
    notifyOnSuccess: bool,
    scheduleEnabled: bool,
    schedulePattern: Option<string>,
    inputSources: seq<string>,
    outputDestinations: seq<string>)

  datatype LogLevel = LogInfo | LogWarning | LogError | LogSuccess

  datatype BotLog = BotLog(
    id: string,
    botId: string,
    timestamp: Timestamp,
    level: LogLevel,
    message: string,
    executionId: Option<string>)

  /** Rates and run times are fractional numbers in the source. */
  datatype RPABot = RPABot(
    id: string,
    name: string,
    botType: BotType,
    status: BotStatus,
    version: string,
    description: string,
    capabilities: seq<string>,
    lastRun: Option<Timestamp>,
    nextScheduledRun: Option<Timestamp>,
    successRate: real,
    totalRuns: nat,
    averageRunTime: real,
    configuration: BotConfiguration,
    logs: seq<BotLog>)

  datatype ExecutionStatus = ExecRunning | ExecCompleted | ExecFailed | ExecCancelled

  datatype ExecutionMetrics = ExecutionMetrics(
    documentsProcessed: int,
    dataPointsExtracted: int,
    accuracyScore: real,
    processingTimeMs: int,
    memoryUsageMB: int)

  datatype BotExecution = BotExecution(
    id: string,
    botId: string,
    startTime: Timestamp,
    endTime: Option<Timestamp>,
    status: ExecutionStatus,
    progress: int,
    currentStep: string,
    totalSteps: int,
    errorMessage: Option<string>,
    metrics: ExecutionMetrics)

  // ---------------------------------------------------------------------
  // Document templates

  datatype TemplateType = Form16Template | SalarySlipTemplate | BankStatementTemplate | InvestmentProofTemplate | ItrFormTemplate

  datatype FieldType = TextField | NumberField | DateField | CurrencyField | PanField | AadhaarField

  datatype TemplateField = TemplateField(
    name: string,
    fieldType: FieldType,
    required: bool,
    pattern: Option<string>,
    description: string,
    extractionHints: seq<string>)

  /** The `rule` kind of a validation rule together with its `parameters`. */
  datatype RuleKind =
    | RequiredRule
    | FormatRule(pattern: string)
    | RangeRule(min: int, max: int)
    | CustomRule

  datatype ValidationRule = ValidationRule(field: string, kind: RuleKind, errorMessage: string)

  datatype OCRSettings = OCRSettings(
    language: string,
    dpi: nat,
    preprocessingSteps: seq<string>,
    confidenceThreshold: real)

  datatype DocumentTemplate = DocumentTemplate(
    id: string,
    name: string,
    templateType: TemplateType,
    fields: seq<TemplateField>,
    validationRules: seq<ValidationRule>,
    ocrSettings: OCRSettings)

  /** A value extracted for one field: text, or a whole number of rupees. */
  datatype FieldValue = Text(text: string) | Number(amount: int)

  /** Extracted data, by field name. */
  type Extraction = map<string, FieldValue>

  /** The pattern text the form16 template gives for a PAN. */
  const PanPatternText: string := "[A-Z]{5}[0-9]{4}[A-Z]{1}"

  predicate IsDigit(c: char) { '0' <= c <= '9' }

  /**
   * `s` is a PAN in full: five letters A-Z, four digits, one letter A-Z,
   * and nothing before or after them.
   */
  predicate IsPan(s: string)
  {
    && |s| == 10
    && (forall i :: 0 <= i < 5 ==> IsUpperAscii(s[i]))
    && (forall i :: 5 <= i < 9 ==> IsDigit(s[i]))
    && IsUpperAscii(s[9])
  }

  /** A PAN stands in `s` at index `i`. */
  predicate PanAt(s: string, i: nat)
  {
    i + 10 <= |s| && IsPan(s[i..i + 10])
  }

  /**
   * `s` contains a PAN somewhere: what testing the unanchored pattern
   * against `s` would accept.
   */
  predicate ContainsPan(s: string)
  {
    exists i: nat | i <= |s| :: PanAt(s, i)
  }

  /** A string that is a PAN in full is also found by the unanchored search. */
  lemma WholePanIsFound(s: string)
    requires IsPan(s)
    ensures ContainsPan(s)
  {
    assert s[0..10] == s;
    assert PanAt(s, 0);
  }

  /** The unanchored search accepts a string that is not a PAN. */
  lemma SearchAcceptsNonPan()
    ensures ContainsPan("xABCDE1234F") && !IsPan("xABCDE1234F")
  {
    var s := "xABCDE1234F";
    assert s[1..11] == "ABCDE1234F";
    assert IsPan(s[1..11]);
    assert PanAt(s, 1);
  }

  /**
   * Whether one rule accepts the extracted data. A format or range rule
   * judges a value that is present (presence is what `required` is for);
   * the only pattern understood is the PAN pattern; a custom rule carries
   * no definition and accepts everything.
   */
  predicate RulePasses(rule: ValidationRule, data: Extraction)
  {
    match rule.kind
    case RequiredRule => rule.field in data
    case FormatRule(p) =>
      rule.field in data ==>
        data[rule.field].Text? && p == PanPatternText && IsPan(data[rule.field].text)
    case RangeRule(lo, hi) =>
      rule.field in data ==>
        data[rule.field].Number? && lo <= data[rule.field].amount <= hi
    case CustomRule => true
  }

  /** The names of the template's required fields that the data does not have. */
  function MissingFields(t: DocumentTemplate, data: Extraction): (r: seq<TemplateField>)
    ensures forall i :: 0 <= i < |r| ==> r[i] in t.fields && r[i].required && r[i].name !in data
    ensures forall i :: 0 <= i < |t.fields| && t.fields[i].required && t.fields[i].name !in data ==>
      t.fields[i] in r
    ensures forall i :: 0 <= i < |t.fields| ==>
      multiset(r)[t.fields[i]] ==
        if t.fields[i].required && t.fields[i].name !in data then multiset(t.fields)[t.fields[i]] else 0
    ensures IsSubsequence(r, t.fields)
  {
    Filter(t.fields, (f: TemplateField) => f.required && f.name !in data)
  }

  /** The template's validation rules that the data violates, in declaration order. */
  function FailedRules(t: DocumentTemplate, data: Extraction): (r: seq<ValidationRule>)
    ensures forall i :: 0 <= i < |r| ==> r[i] in t.validationRules && !RulePasses(r[i], data)
    ensures forall i :: 0 <= i < |t.validationRules| && !RulePasses(t.validationRules[i], data) ==>
      t.validationRules[i] in r
    ensures forall i :: 0 <= i < |t.validationRules| ==>
      multiset(r)[t.validationRules[i]] ==
        if !RulePasses(t.validationRules[i], data) then multiset(t.validationRules)[t.validationRules[i]] else 0
    ensures IsSubsequence(r, t.validationRules)
  {
    Filter(t.validationRules, (rule: ValidationRule) => !RulePasses(rule, data))
  }

  /** The data satisfies the template: nothing required is missing and no rule fails. */
  predicate Conforms(t: DocumentTemplate, data: Extraction)
  {
    MissingFields(t, data) == [] && FailedRules(t, data) == []
  }

  /** Conformance, field by field and rule by rule. */
  lemma ConformsIff(t: DocumentTemplate, data: Extraction)
    ensures Conforms(t, data) <==>
      (forall i :: 0 <= i < |t.fields| && t.fields[i].required ==> t.fields[i].name in data) &&
      (forall i :: 0 <= i < |t.validationRules| ==> RulePasses(t.validationRules[i], data))
  {
    var missing := (f: TemplateField) => f.required && f.name !in data;
    var failing := (rule: ValidationRule) => !RulePasses(rule, data);
    if (forall i :: 0 <= i < |t.fields| && t.fields[i].required ==> t.fields[i].name in data) {
      FilterKeepsNone(t.fields, missing);
    }
    if (forall i :: 0 <= i < |t.validationRules| ==> RulePasses(t.validationRules[i], data)) {
      FilterKeepsNone(t.validationRules, failing);
    }
  }

  /** Every validation rule of the template names one of its declared fields. */
  predicate RulesNameDeclaredFields(t: DocumentTemplate)
  {
    forall i :: 0 <= i < |t.validationRules| ==>
      exists j :: 0 <= j < |t.fields| && t.fields[j].name == t.validationRules[i].field
  }
}
