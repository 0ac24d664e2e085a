/** The bots, executions and the form16 template the application ships with. */
module AutomationData {
  import opened Common
  import opened Seqs
  import opened Automation

  const MockRPABots: seq<RPABot> := [
    RPABot(
      "bot-001", "Document Intake Bot", DataIntake, Running, "2.1.3",
      "Automatically processes uploaded documents using OCR and extracts structured data",
      ["PDF text extraction", "Image OCR processing", "Form 16 data extraction",
       "Bank statement parsing", "Investment proof categorization"],
      Some("2024-01-15T10:30:00Z"), Some("2024-01-15T14:00:00Z"), 94.5, 1247, 3.2,
      BotConfiguration(true, 3, 10, true, false, true, Some("0 */4 * * *"),
        ["upload_folder", "email_attachments"], ["database", "processed_folder"]),
      []),
    RPABot(
      "bot-002", "Tax Computation Engine", TaxComputation, Idle, "3.0.1",
      "Calculates tax liability, deductions, and refunds based on extracted data",
      ["Income tax calculation", "Deduction optimization", "TDS computation",
       "Refund calculation", "Tax saving suggestions"],
      Some("2024-01-15T09:15:00Z"), None, 98.2, 892, 1.8,
      BotConfiguration(false, 2, 5, true, true, false, None,
        ["processed_data"], ["tax_calculations", "review_queue"]),
      []),
    RPABot(
      "bot-003", "Portal Navigator", PortalNavigation, Paused, "1.8.7",
      "Navigates income tax portal, handles login, and form submissions",
      ["Portal login automation", "Form selection and navigation", "Data entry automation",
       "Captcha handling", "Session management"],
      Some("2024-01-14T16:45:00Z"), None, 87.3, 456, 8.5,
      BotConfiguration(false, 5, 15, true, true, false, None,
        ["filing_queue"], ["portal_responses", "acknowledgments"]),
      []),
    RPABot(
      "bot-004", "E-Verification Bot", Verification, Idle, "2.3.2",
      "Handles OTP verification and e-filing confirmation",
      ["OTP retrieval from email/SMS", "E-verification automation", "Acknowledgment download",
       "Status tracking", "Retry logic for failed verifications"],
      Some("2024-01-15T08:20:00Z"), None, 91.7, 234, 2.1,
      BotConfiguration(true, 3, 8, true, true, false, None,
        ["filed_returns"], ["verified_returns", "client_notifications"]),
      [])
  ]

  const MockBotExecutions: seq<BotExecution> := [
    BotExecution(
      "exec-001", "bot-001", "2024-01-15T10:30:00Z", Some("2024-01-15T10:33:12Z"),
      ExecCompleted, 100, "Data validation complete", 5, None,
      ExecutionMetrics(12, 156, 96.8, 192000, 245)),
    BotExecution(
      "exec-002", "bot-002", "2024-01-15T11:15:00Z", None,
      ExecRunning, 65, "Computing deductions", 8, None,
      ExecutionMetrics(0, 0, 0.0, 0, 128))
  ]

  const PanErrorMessage: string := "Invalid PAN format"

  const Form16: DocumentTemplate := DocumentTemplate(
    "template-form16", "Form 16 Template", Form16Template,
    [
      TemplateField("employeeName", TextField, true, None, "Employee Name",
        ["name of employee", "employee name", "name"]),
      TemplateField("pan", PanField, true, Some(PanPatternText), "PAN Number",
        ["pan", "permanent account number"]),
      TemplateField("grossSalary", CurrencyField, true, None, "Gross Salary",
        ["gross salary", "total salary", "gross income"]),
      TemplateField("tdsDeducted", CurrencyField, true, None, "TDS Deducted",
        ["tds", "tax deducted", "deducted tax"])
    ],
    [
      ValidationRule("pan", FormatRule(PanPatternText), PanErrorMessage),
      ValidationRule("grossSalary", RangeRule(0, 10000000), "Gross salary must be between 0 and 1 crore")
    ],
    OCRSettings("en", 300, ["deskew", "noise_removal", "contrast_enhancement"], 0.8))

  /** Whether some bot in `bots` has the id `botId`. */
  predicate NamesBot(bots: seq<RPABot>, botId: string)
  {
    exists j :: 0 <= j < |bots| && bots[j].id == botId
  }

  /** Every shipped execution belongs to a shipped bot. */
  lemma MockExecutionsNameBots()
    ensures forall i :: 0 <= i < |MockBotExecutions| ==> NamesBot(MockRPABots, MockBotExecutions[i].botId)
  {
    assert MockRPABots[0].id == MockBotExecutions[0].botId;
    assert MockRPABots[1].id == MockBotExecutions[1].botId;
  }

  /** Every shipped bot configuration allows zero or more retries and a positive timeout. */
  lemma MockConfigurationsSane()
    ensures forall i :: 0 <= i < |MockRPABots| ==>
      MockRPABots[i].configuration.retryAttempts >= 0 && MockRPABots[i].configuration.timeoutMinutes > 0
  {
  }

  /** The completed execution is at 100% with an end time; the running one has no end time. */
  lemma MockExecutionsEndTimes()
    ensures forall i :: 0 <= i < |MockBotExecutions| && MockBotExecutions[i].status == ExecCompleted ==>
      MockBotExecutions[i].progress == 100 && MockBotExecutions[i].endTime.Some?
    ensures forall i :: 0 <= i < |MockBotExecutions| && MockBotExecutions[i].status == ExecRunning ==>
      MockBotExecutions[i].endTime == None
  {
  }

  /** All four form16 fields are required, and these are the four fields. */
  lemma Form16FieldsRequired()
    ensures |Form16.fields| == 4
    ensures Form16.fields[0].name == "employeeName" && Form16.fields[1].name == "pan"
    ensures Form16.fields[2].name == "grossSalary" && Form16.fields[3].name == "tdsDeducted"
    ensures forall i :: 0 <= i < |Form16.fields| ==> Form16.fields[i].required
  {
  }

  /** The form16 gross salary is checked against the range 0 to 10000000, and the PAN against its pattern. */
  lemma Form16Rules()
    ensures ValidationRule("grossSalary", RangeRule(0, 10000000), "Gross salary must be between 0 and 1 crore")
      in Form16.validationRules
    ensures ValidationRule("pan", FormatRule(PanPatternText), PanErrorMessage) in Form16.validationRules
    ensures Form16.fields[1].pattern == Some(PanPatternText)
  {
  }

  /** Every form16 rule names a declared field. */
  lemma Form16RulesNameFields()
    ensures RulesNameDeclaredFields(Form16)
  {
    assert Form16.fields[1].name == Form16.validationRules[0].field;
    assert Form16.fields[2].name == Form16.validationRules[1].field;
  }

  /** Complete form16 data: a value for each of the four declared fields. */
  function Form16Data(name: string, pan: string, grossSalary: int, tds: int): Extraction
  {
    map[
      "employeeName" := Text(name),
      "pan" := Text(pan),
      "grossSalary" := Number(grossSalary),
      "tdsDeducted" := Number(tds)
    ]
  }

  /** Complete form16 data lacks no required field. */
  lemma Form16NothingMissing(name: string, pan: string, grossSalary: int, tds: int)
    ensures MissingFields(Form16, Form16Data(name, pan, grossSalary, tds)) == []
  {
    var data := Form16Data(name, pan, grossSalary, tds);
    var fields := Form16.fields;
    assert forall i :: 0 <= i < |fields| ==> fields[i].name in data by {
      assert |fields| == 4;
    }
    FilterKeepsNone(fields, (f: TemplateField) => f.required && f.name !in data);
  }

  /** Complete form16 data passes both rules exactly when its PAN and gross salary are valid. */
  lemma Form16RulesPassIff(name: string, pan: string, grossSalary: int, tds: int)
    ensures FailedRules(Form16, Form16Data(name, pan, grossSalary, tds)) == [] <==>
      IsPan(pan) && 0 <= grossSalary <= 10000000
  {
    var data := Form16Data(name, pan, grossSalary, tds);
    var rules := Form16.validationRules;
    var failing := (rule: ValidationRule) => !RulePasses(rule, data);
    assert |rules| == 2;
    assert RulePasses(rules[0], data) <==> IsPan(pan);
    assert RulePasses(rules[1], data) <==> 0 <= grossSalary <= 10000000;
    if IsPan(pan) && 0 <= grossSalary <= 10000000 {
      FilterKeepsNone(rules, failing);
    } else if !IsPan(pan) {
      assert rules[0] in FailedRules(Form16, data);
    } else {
      assert rules[1] in FailedRules(Form16, data);
    }
  }

  /**
   * With every field present, form16 data conforms exactly when the PAN is
   * a PAN and the gross salary lies in the declared range.
   */
  lemma Form16ConformsIff(name: string, pan: string, grossSalary: int, tds: int)
    ensures Conforms(Form16, Form16Data(name, pan, grossSalary, tds)) <==>
      IsPan(pan) && 0 <= grossSalary <= 10000000
  {
    Form16NothingMissing(name, pan, grossSalary, tds);
    Form16RulesPassIff(name, pan, grossSalary, tds);
  }

  /** A form16 whose PAN is "12345" fails the PAN rule, and only that rule. */
  lemma Form16RejectsShortPan(name: string, tds: int)
    ensures FailedRules(Form16, Form16Data(name, "12345", 850000, tds)) == [Form16.validationRules[0]]
    ensures FailedRules(Form16, Form16Data(name, "12345", 850000, tds))[0].field == "pan"
    ensures FailedRules(Form16, Form16Data(name, "12345", 850000, tds))[0].errorMessage == PanErrorMessage
  {
    var data := Form16Data(name, "12345", 850000, tds);
    assert !RulePasses(Form16.validationRules[0], data);
    assert RulePasses(Form16.validationRules[1], data);
    var rules := Form16.validationRules;
    var failing := (rule: ValidationRule) => !RulePasses(rule, data);
    assert Filter(rules[1..], failing) == [] by {
      assert rules[1..][1..] == [];
    }
  }
}
