/**
 * The document intake page: the list of uploaded files and the timer
 * callbacks that move each one from uploading through OCR processing to
 * completed. Each callback is one tick, applied by whatever drives the timers.
 */
module DocumentIntake {
  import opened Common
  import opened Automation
  import opened AutomationData

  datatype FileStatus = Uploading | Processing | Completed | Error

  /** What the browser reports about a selected file. */
  datatype SelectedFile = SelectedFile(name: string, size: nat, mimeType: string)

  /** One row of the upload list. Confidence and processing time are fractional. */
  datatype UploadedFile = UploadedFile(
    id: string,
    name: string,
    size: nat,
    mimeType: string,
    status: FileStatus,
    progress: nat,
    clientId: string,
    documentType: string,
    extractedData: Option<Extraction>,
    ocrConfidence: Option<real>,
    processingTime: Option<real>)

  const MaxProgress: nat := 100
  const UploadIncrement: nat := 10
  const OcrIncrement: nat := 15
  const MockConfidence: real := 94.5
  const MockProcessingTime: real := 3.2

  /** The PAN every completed OCR run reports. */
  const MockPan: string := "ABCDE1234F"
  /** The data every completed OCR run reports. */
  const MockExtraction: Extraction := Form16Data("Priya Patel", MockPan, 850000, 85000)

  /** `Math.min(x, 100)`. */
  function CapProgress(x: nat): nat
  {
    if x < MaxProgress then x else MaxProgress
  }

  /** The row added for a selected file: uploading, at 0%, with the chosen client and type. */
  function NewRecord(id: string, file: SelectedFile, clientId: string, documentType: string): UploadedFile
  {
    UploadedFile(id, file.name, file.size, file.mimeType, Uploading, 0, clientId, documentType, None, None, None)
  }

  /** One upload-interval callback applied to one row. */
  function UploadStep(f: UploadedFile, id: string): (g: UploadedFile)
    ensures f.id != id || f.status != Uploading ==> g == f
    ensures f.id == id && f.status == Uploading ==>
      g.progress == CapProgress(f.progress + UploadIncrement) &&
      g.status == (if g.progress == MaxProgress then Processing else Uploading) &&
      g.(progress := f.progress, status := f.status) == f
  {
    if f.id == id && f.status == Uploading then
      var p := CapProgress(f.progress + UploadIncrement);
      if p == MaxProgress then f.(progress := p, status := Processing) else f.(progress := p)
    else f
  }

  /**
   * The delayed start of OCR: the row with the id goes to processing at 0%,
   * whatever its status was.
   */
  function OcrReset(f: UploadedFile, id: string): (g: UploadedFile)
    ensures f.id != id ==> g == f
    ensures f.id == id ==>
      g.status == Processing && g.progress == 0 && g.(progress := f.progress, status := f.status) == f
  {
    if f.id == id then f.(status := Processing, progress := 0) else f
  }

  /** One OCR-interval callback applied to one row. */
  function OcrStep(f: UploadedFile, id: string): (g: UploadedFile)
    ensures f.id != id || f.status != Processing ==> g == f
    ensures f.id == id && f.status == Processing ==>
      g.progress == CapProgress(f.progress + OcrIncrement) &&
      (g.progress < MaxProgress ==> g == f.(progress := g.progress)) &&
      (g.progress == MaxProgress ==>
        g == f.(progress := MaxProgress, status := Completed, ocrConfidence := Some(MockConfidence),
                processingTime := Some(MockProcessingTime), extractedData := Some(MockExtraction)))
  {
    if f.id == id && f.status == Processing then
      var p := CapProgress(f.progress + OcrIncrement);
      if p == MaxProgress then
        f.(progress := p, status := Completed, ocrConfidence := Some(MockConfidence),
           processingTime := Some(MockProcessingTime), extractedData := Some(MockExtraction))
      else f.(progress := p)
    else f
  }

  /** `prev.map(step)` for the upload callback. */
  function UploadTicked(files: seq<UploadedFile>, id: string): seq<UploadedFile>
  {
    seq(|files|, i requires 0 <= i < |files| => UploadStep(files[i], id))
  }

  /** `prev.map(reset)` for the start of OCR. */
  function OcrStarted(files: seq<UploadedFile>, id: string): seq<UploadedFile>
  {
    seq(|files|, i requires 0 <= i < |files| => OcrReset(files[i], id))
  }

  /** `prev.map(step)` for the OCR callback. */
  function OcrTicked(files: seq<UploadedFile>, id: string): seq<UploadedFile>
  {
    seq(|files|, i requires 0 <= i < |files| => OcrStep(files[i], id))
  }

  /**
   * A callback rewrites only the row it is for: the list keeps its length,
   * rows with another id are untouched, and a completed row ignores both
   * interval callbacks.
   */
  lemma CallbacksTouchOnlyTheirRow(files: seq<UploadedFile>, id: string)
    ensures |UploadTicked(files, id)| == |OcrStarted(files, id)| == |OcrTicked(files, id)| == |files|
    ensures forall i :: 0 <= i < |files| && files[i].id != id ==>
      UploadTicked(files, id)[i] == OcrStarted(files, id)[i] == OcrTicked(files, id)[i] == files[i]
    ensures forall i :: 0 <= i < |files| && files[i].status == Completed ==>
      UploadTicked(files, id)[i] == OcrTicked(files, id)[i] == files[i]
    ensures forall i :: 0 <= i < |files| ==>
      UploadTicked(files, id)[i] == UploadStep(files[i], id) &&
      OcrStarted(files, id)[i] == OcrReset(files[i], id) &&
      OcrTicked(files, id)[i] == OcrStep(files[i], id)
  {
  }

  /**
   * What every row of the list satisfies: progress at most 100, never the
   * error status, no extraction while uploading, and a completed row is at
   * 100% with the OCR results, which are the mock extraction.
   */
  predicate WellFormed(f: UploadedFile)
  {
    && f.progress <= MaxProgress
    && f.status != Error
    && (f.status == Uploading ==> f.extractedData == None)
    && (f.status == Completed ==>
          f.progress == MaxProgress && f.extractedData.Some? &&
          f.ocrConfidence.Some? && f.processingTime.Some?)
    && (f.extractedData == None || f.extractedData == Some(MockExtraction))
  }

  /** Every callback keeps a row well formed; in particular none produces the error status. */
  lemma StepsKeepWellFormed(f: UploadedFile, id: string)
    requires WellFormed(f)
    ensures WellFormed(UploadStep(f, id))
    ensures WellFormed(OcrReset(f, id))
    ensures WellFormed(OcrStep(f, id))
  {
  }

  /** A new row is well formed. */
  lemma NewRecordWellFormed(id: string, file: SelectedFile, clientId: string, documentType: string)
    ensures WellFormed(NewRecord(id, file, clientId, documentType))
  {
  }

  /** The PAN the OCR step reports is a well-formed PAN. */
  lemma MockPanIsPan()
    ensures IsPan(MockPan)
  {
  }

  /** The extracted data of a well-formed row satisfies the form16 template. */
  lemma ExtractionConformsToForm16(f: UploadedFile)
    requires WellFormed(f) && f.extractedData.Some?
    ensures Conforms(Form16, f.extractedData.value)
  {
    MockPanIsPan();
    Form16ConformsIff("Priya Patel", MockPan, 850000, 85000);
  }

  /** `k` upload callbacks in a row on one row. */
  function UploadTicks(f: UploadedFile, id: string, k: nat): UploadedFile
  {
    if k == 0 then f else UploadStep(UploadTicks(f, id, k - 1), id)
  }

  /** `k` OCR callbacks in a row on one row. */
  function OcrTicks(f: UploadedFile, id: string, k: nat): UploadedFile
  {
    if k == 0 then f else OcrStep(OcrTicks(f, id, k - 1), id)
  }

  /** From 0%, the k-th upload callback (k up to 10) leaves the row at 10k%; the tenth makes it processing. */
  lemma {:induction false} UploadProgressFromZero(f: UploadedFile, id: string, k: nat)
    requires f.id == id && f.status == Uploading && f.progress == 0 && k <= 10
    ensures UploadTicks(f, id, k) ==
      f.(progress := UploadIncrement * k, status := if k == 10 then Processing else Uploading)
  {
    if k > 0 {
      UploadProgressFromZero(f, id, k - 1);
    }
  }

  /** Once a row has left the uploading status, upload callbacks leave it alone. */
  lemma {:induction false} UploadTicksStop(f: UploadedFile, id: string, k: nat)
    requires f.status != Uploading
    ensures UploadTicks(f, id, k) == f
  {
    if k > 0 {
      UploadTicksStop(f, id, k - 1);
    }
  }

  /** A fresh upload becomes processing after exactly ten callbacks and then stays put. */
  lemma UploadTakesTenTicks(f: UploadedFile, id: string, k: nat)
    requires f.id == id && f.status == Uploading && f.progress == 0
    ensures k < 10 ==> UploadTicks(f, id, k).status == Uploading
    ensures k >= 10 ==> UploadTicks(f, id, k) == f.(progress := MaxProgress, status := Processing)
  {
    if k < 10 {
      UploadProgressFromZero(f, id, k);
    } else {
      UploadProgressFromZero(f, id, 10);
      UploadTicksAfter(f, id, 10, k - 10);
      UploadTicksStop(UploadTicks(f, id, 10), id, k - 10);
    }
  }

  /** Running k callbacks and then m more is running k + m. */
  lemma {:induction false} UploadTicksAfter(f: UploadedFile, id: string, k: nat, m: nat)
    ensures UploadTicks(UploadTicks(f, id, k), id, m) == UploadTicks(f, id, k + m)
  {
    if m > 0 {
      UploadTicksAfter(f, id, k, m - 1);
    }
  }

  /**
   * From 0%, the k-th OCR callback (k up to 6) leaves the row processing at
   * 15k%; the seventh caps 105 at 100 and completes it with the mock results.
   */
  lemma {:induction false} OcrProgressFromZero(f: UploadedFile, id: string, k: nat)
    requires f.id == id && f.status == Processing && f.progress == 0 && k <= 7
    ensures k < 7 ==> OcrTicks(f, id, k) == f.(progress := OcrIncrement * k)
    ensures k == 7 ==>
      OcrTicks(f, id, k) ==
        f.(progress := MaxProgress, status := Completed, ocrConfidence := Some(MockConfidence),
           processingTime := Some(MockProcessingTime), extractedData := Some(MockExtraction))
  {
    if k > 0 {
      OcrProgressFromZero(f, id, k - 1);
    }
  }

  /** Once a row has left the processing status, OCR callbacks leave it alone. */
  lemma {:induction false} OcrTicksStop(f: UploadedFile, id: string, k: nat)
    requires f.status != Processing
    ensures OcrTicks(f, id, k) == f
  {
    if k > 0 {
      OcrTicksStop(f, id, k - 1);
    }
  }

  /** Running k OCR callbacks and then m more is running k + m. */
  lemma {:induction false} OcrTicksAfter(f: UploadedFile, id: string, k: nat, m: nat)
    ensures OcrTicks(OcrTicks(f, id, k), id, m) == OcrTicks(f, id, k + m)
  {
    if m > 0 {
      OcrTicksAfter(f, id, k, m - 1);
    }
  }

  /** OCR from 0% completes after exactly seven callbacks, and the row then stays completed. */
  lemma OcrTakesSevenTicks(f: UploadedFile, id: string, k: nat)
    requires f.id == id && f.status == Processing && f.progress == 0
    ensures k < 7 ==> OcrTicks(f, id, k).status == Processing
    ensures k >= 7 ==> OcrTicks(f, id, k).status == Completed && OcrTicks(f, id, k).progress == MaxProgress
  {
    if k < 7 {
      OcrProgressFromZero(f, id, k);
    } else {
      OcrProgressFromZero(f, id, 7);
      OcrTicksAfter(f, id, 7, k - 7);
      OcrTicksStop(OcrTicks(f, id, 7), id, k - 7);
    }
  }

  /** Upload callbacks on a whole list act on each row separately. */
  function UploadTickedTimes(files: seq<UploadedFile>, id: string, k: nat): seq<UploadedFile>
  {
    if k == 0 then files else UploadTicked(UploadTickedTimes(files, id, k - 1), id)
  }

  /** After k upload callbacks every row is what k callbacks make of it alone; the length is kept. */
  lemma {:induction false} UploadTickedTimesRowwise(files: seq<UploadedFile>, id: string, k: nat)
    ensures |UploadTickedTimes(files, id, k)| == |files|
    ensures forall i :: 0 <= i < |files| ==> UploadTickedTimes(files, id, k)[i] == UploadTicks(files[i], id, k)
  {
    if k > 0 {
      UploadTickedTimesRowwise(files, id, k - 1);
      CallbacksTouchOnlyTheirRow(UploadTickedTimes(files, id, k - 1), id);
    }
  }

  /** The upload list of the page. */
  class IntakeBoard {
    var files: seq<UploadedFile>

    ghost predicate Valid()
      reads this
    {
      forall i :: 0 <= i < |files| ==> WellFormed(files[i])
    }

    constructor ()
      ensures files == [] && Valid()
    {
      files := [];
    }

    /**
     * `handleFiles`: one new row per selected file, appended in order, all
     * with the client and document type the caller passes. `ids` are the
     * generated row ids.
     */
    method Submit(batch: seq<SelectedFile>, ids: seq<string>, clientId: string, documentType: string)
      requires |ids| == |batch| && Valid()
      modifies this
      ensures Valid()
      ensures |files| == |old(files)| + |batch|
      ensures files[..|old(files)|] == old(files)
      ensures forall k :: 0 <= k < |batch| ==>
        files[|old(files)| + k] == NewRecord(ids[k], batch[k], clientId, documentType)
    {
      var i := 0;
      while i < |batch|
        invariant 0 <= i <= |batch|
        invariant Valid()
        invariant |files| == |old(files)| + i
        invariant files[..|old(files)|] == old(files)
        invariant forall k :: 0 <= k < i ==>
          files[|old(files)| + k] == NewRecord(ids[k], batch[k], clientId, documentType)
      {
        NewRecordWellFormed(ids[i], batch[i], clientId, documentType);
        files := files + [NewRecord(ids[i], batch[i], clientId, documentType)];
        i := i + 1;
      }
    }

    /** One tick of the upload interval for the row `id`. */
    method UploadTick(id: string)
      requires Valid()
      modifies this
      ensures Valid()
      ensures files == UploadTicked(old(files), id)
    {
      forall i | 0 <= i < |files| ensures WellFormed(UploadStep(files[i], id)) {
        StepsKeepWellFormed(files[i], id);
      }
      CallbacksTouchOnlyTheirRow(files, id);
      files := UploadTicked(files, id);
    }

    /** The delayed callback that starts OCR for the row `id`. */
    method StartOcr(id: string)
      requires Valid()
      modifies this
      ensures Valid()
      ensures files == OcrStarted(old(files), id)
    {
      forall i | 0 <= i < |files| ensures WellFormed(OcrReset(files[i], id)) {
        StepsKeepWellFormed(files[i], id);
      }
      CallbacksTouchOnlyTheirRow(files, id);
      files := OcrStarted(files, id);
    }

    /** One tick of the OCR interval for the row `id`. */
    method OcrTick(id: string)
      requires Valid()
      modifies this
      ensures Valid()
      ensures files == OcrTicked(old(files), id)
    {
      forall i | 0 <= i < |files| ensures WellFormed(OcrStep(files[i], id)) {
        StepsKeepWellFormed(files[i], id);
      }
      CallbacksTouchOnlyTheirRow(files, id);
      files := OcrTicked(files, id);
    }
  }
}
