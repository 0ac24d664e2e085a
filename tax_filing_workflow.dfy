/** The tax filing page: the status filter, status labels and badges, and the step overview. */
module TaxFilingWorkflow {
  import opened Common
  import opened Seqs
  import opened Text
  import opened Domain

  /** The fixed workflow overview: six steps, each given by its id. */
  const WorkflowStepIds: seq<string> :=
    ["data_collection", "processing", "computation", "review", "filing", "verification"]

  /** The filings shown for the status drop-down: all of them, or those with the chosen status. */
  function FilteredFilings(filings: seq<Filing>, filter: Selection<FilingStatus>): (r: seq<Filing>)
    ensures forall i :: 0 <= i < |r| ==> r[i] in filings && filter.Admits(r[i].status)
    ensures forall i :: 0 <= i < |filings| && filter.Admits(filings[i].status) ==> filings[i] in r
    ensures forall i :: 0 <= i < |filings| ==>
      multiset(r)[filings[i]] == if filter.Admits(filings[i].status) then multiset(filings)[filings[i]] else 0
    ensures IsSubsequence(r, filings)
  {
    Filter(filings, (f: Filing) => filter.Admits(f.status))
  }

  /** The filter 'all' shows every filing, in order. */
  lemma FilterAllShowsEverything(filings: seq<Filing>)
    ensures FilteredFilings(filings, All) == filings
  {
    FilterKeepsAll(filings, (f: Filing) => All.Admits(f.status));
  }

  /** A status filter shows exactly the filings with that status. */
  lemma FilterByStatus(filings: seq<Filing>, status: FilingStatus, f: Filing)
    ensures f in FilteredFilings(filings, Only(status)) <==> f in filings && f.status == status
  {
  }

  /** The page is mounted with an empty list; then nothing is shown under any filter. */
  lemma EmptyFilingsShowNothing(filter: Selection<FilingStatus>)
    ensures FilteredFilings([], filter) == []
  {
  }

  /** The status badge text: the first underscore of the status becomes a space. */
  function StatusLabel(s: FilingStatus): (r: string)
    ensures |r| == |FilingStatusText(s)|
    ensures forall i :: 0 <= i < |r| ==>
      r[i] == if i == IndexOf(FilingStatusText(s), '_') then ' ' else FilingStatusText(s)[i]
  {
    ReplaceFirst(FilingStatusText(s), '_', ' ')
  }

  /**
   * The step badge text: the first underscore of the step status becomes a
   * space. No step status has two, so the label has no underscore.
   */
  function StepStatusLabel(s: StepStatus): (r: string)
    ensures |r| == |StepStatusText(s)|
    ensures forall i :: 0 <= i < |r| ==> r[i] == if StepStatusText(s)[i] == '_' then ' ' else StepStatusText(s)[i]
    ensures '_' !in r
  {
    assert AtMostOnce(StepStatusText(s), '_');
    ReplaceFirstSingle(StepStatusText(s), '_', ' ');
    ReplaceFirst(StepStatusText(s), '_', ' ')
  }

  /** A status with one underscore reads with a space instead. */
  lemma ReviewRequiredLabel()
    ensures StatusLabel(ReviewRequired) == "review required"
  {
    ReplaceFirstAt("review_required", '_', ' ', 6, "review required");
  }

  /** Only the first underscore is replaced: a status with two keeps the second. */
  lemma FilingInProgressLabel()
    ensures StatusLabel(FilingInProgress) == "filing in_progress"
    ensures '_' in StatusLabel(FilingInProgress)
  {
    ReplaceFirstAt("filing_in_progress", '_', ' ', 6, "filing in_progress");
    assert "filing in_progress"[9] == '_';
  }

  /** The in-progress step reads "in progress". */
  lemma StepInProgressLabel()
    ensures StepStatusLabel(StepInProgress) == "in progress"
  {
    ReplaceFirstAt("in_progress", '_', ' ', 2, "in progress");
  }

  /** The icon and colour a filing status is drawn with. */
  datatype StatusLook = CompletedLook | ReviewLook | FilingLook | ProcessingLook | DefaultLook

  function FilingStatusLook(s: FilingStatus): (look: StatusLook)
    ensures look == DefaultLook <==>
      s !in {Completed, ReviewRequired, FilingInProgress, Processing}
  {
    match s
    case Completed => CompletedLook
    case ReviewRequired => ReviewLook
    case FilingInProgress => FilingLook
    case Processing => ProcessingLook
    case _ => DefaultLook
  }

  /** The icon and colour a workflow step is drawn with. */
  datatype StepLook = DoneLook | WorkingLook | FailedLook | WaitingLook

  function WorkflowStepLook(step: WorkflowStep): (look: StepLook)
    ensures look == WaitingLook <==> step.status == StepPending
    ensures look == DoneLook <==> step.status == StepCompleted
    ensures look == WorkingLook <==> step.status == StepInProgress
    ensures look == FailedLook <==> step.status == StepFailed
  {
    match step.status
    case StepCompleted => DoneLook
    case StepInProgress => WorkingLook
    case StepFailed => FailedLook
    case _ => WaitingLook
  }

  /** For each step of the overview, whether a connector line is drawn after it. */
  function ConnectorAfter<T>(steps: seq<T>): seq<bool>
  {
    seq(|steps|, i requires 0 <= i < |steps| => i < |steps| - 1)
  }

  /** How many connector lines the overview draws: one after every step but the last. */
  function ConnectorCount<T>(steps: seq<T>): (n: nat)
    ensures n == if steps == [] then 0 else |steps| - 1
  {
    var marks, drawn := ConnectorAfter(steps), (b: bool) => b;
    if steps == [] then 0
    else
      var k := |steps| - 1;
      assert marks == marks[..k] + [false];
      FilterAppend(marks[..k], [false], drawn);
      FilterKeepsAll(marks[..k], drawn);
      |Filter(marks, drawn)|
  }

  /** The six overview steps are joined by five connectors. */
  lemma OverviewConnectors()
    ensures ConnectorCount(WorkflowStepIds) == 5
  {
  }
}
