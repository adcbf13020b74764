/** The upload page of `eduragpt/app/upload/page.tsx`: a file list, a simulated
    upload with accelerating progress, the step indicator and status texts
    derived from the progress, and the step that turns the uploaded files
    into study materials in the store. Toasts, scrolling and the final
    redirect to the chat page are not modelled. */
module UploadPage {
  import opened Wrappers
  import opened Seqs
  import opened Text
  import opened Uploads
  import opened StudyMaterials

  // ---------------------------------------------------------------------
  // Step indicator and status texts

  /** `currentStep`: 1 when not uploading, else 1 to 4 by the thresholds 33, 66 and 100. */
  function CurrentStep(uploading: bool, progress: real): (step: nat)
    ensures 1 <= step <= 4
    ensures !uploading ==> step == 1
  {
    if uploading then
      (if progress < 33.0 then 1 else if progress < 66.0 then 2 else if progress < 100.0 then 3 else 4)
    else 1
  }

  /** The step never goes back while the progress grows. */
  lemma CurrentStepMonotone(p: real, q: real)
    requires p <= q
    ensures CurrentStep(true, p) <= CurrentStep(true, q)
  {
  }

  /** The step reaches 4 only at 100, which only the processing step sets. */
  lemma LastStepNeedsFullProgress(p: real)
    ensures CurrentStep(true, p) == 4 <==> p >= 100.0
  {
  }

  /** The status line shown while uploading. */
  function StatusLabel(progress: real): string
  {
    if progress < 33.0 then "Uploading..."
    else if progress < 66.0 then "Processing..."
    else if progress < 100.0 then "Indexing..."
    else "Complete!"
  }

  /** The explanation shown under the progress bar. */
  function StatusDetail(progress: real): string
  {
    if progress < 33.0 then "Uploading your files to our secure servers"
    else if progress < 66.0 then "Extracting text and knowledge from your documents"
    else if progress < 100.0 then "Creating vector embeddings for semantic search"
    else "Your materials are ready to use!"
  }

  const StepLabels: seq<string> := ["Uploading...", "Processing...", "Indexing...", "Complete!"]

  const StepDetails: seq<string> := [
    "Uploading your files to our secure servers",
    "Extracting text and knowledge from your documents",
    "Creating vector embeddings for semantic search",
    "Your materials are ready to use!"
  ]

  /** The status texts use the same thresholds as the step indicator: each
      step has its own label and explanation. */
  lemma StatusFollowsStep(progress: real)
    ensures StatusLabel(progress) == StepLabels[CurrentStep(true, progress) - 1]
    ensures StatusDetail(progress) == StepDetails[CurrentStep(true, progress) - 1]
    ensures forall i, j :: 0 <= i < j < 4 ==> StepLabels[i] != StepLabels[j]
  {
    assert StepLabels[0][0] == 'U' && StepLabels[1][0] == 'P';
    assert StepLabels[2][0] == 'I' && StepLabels[3][0] == 'C';
  }

  // ---------------------------------------------------------------------
  // Study materials made from the uploaded files

  /** The pages a mock material may get: `Math.floor(Math.random() * 30) + 5`. */
  predicate ValidPageCounts(pages: seq<nat>, n: nat)
  {
    |pages| == n && forall i :: 0 <= i < n ==> 5 <= pages[i] <= 34
  }

  /** The material made from one file. `now` is `Date.now()`, `tag` stands for
      the random base-36 part of the id, `pages` for the random page count and
      `date` for the ISO upload date. */
  function MaterialOf(file: FileInfo, now: nat, tag: string, pages: nat, date: string): StudyMaterial
  {
    StudyMaterial("file-" + NatToString(now) + "-" + tag, file.name, file.fileType, file.size,
                  pages, date, "This is the content of " + file.name)
  }

  /** `files.map(...)`: one material per file, in order, carrying the file's
      name, type and size, a mock content that names the file and a page count
      from 5 to 34. */
  function MaterialsOf(files: seq<FileInfo>, now: nat, tags: seq<string>, pages: seq<nat>,
                       date: string): (r: seq<StudyMaterial>)
    requires |tags| == |files| && ValidPageCounts(pages, |files|)
    ensures |r| == |files|
    ensures forall i :: 0 <= i < |files| ==>
      r[i].name == files[i].name && r[i].fileType == files[i].fileType
      && r[i].size == files[i].size && 5 <= r[i].pages <= 34
      && r[i].content == "This is the content of " + files[i].name
      && r[i].uploadDate == date
    decreases |files|
  {
    if files == [] then []
    else
      [MaterialOf(files[0], now, tags[0], pages[0], date)]
      + MaterialsOf(files[1..], now, tags[1..], pages[1..], date)
  }

  /** The mock content always names its file. */
  lemma ContentNamesFile(files: seq<FileInfo>, now: nat, tags: seq<string>, pages: seq<nat>,
                         date: string, i: nat)
    requires |tags| == |files| && ValidPageCounts(pages, |files|) && i < |files|
    ensures Contains(MaterialsOf(files, now, tags, pages, date)[i].content, files[i].name)
  {
    ContainsInfix("This is the content of ", files[i].name, "");
    assert "This is the content of " + files[i].name + "" == "This is the content of " + files[i].name;
  }

  // ---------------------------------------------------------------------
  // The page state

  /** Where the page is: choosing files, sending them, processing (materials
      added, waiting for the last timer), or complete. */
  datatype PagePhase = Choosing | Sending(snapshot: seq<FileInfo>) | Processing | Complete

  class UploadPageState {
    var files: seq<FileInfo>
    var uploading: bool
    var uploadProgress: real
    var uploadComplete: bool
    var intervalActive: bool
    var phase: PagePhase

    /** The flags follow the phase: `uploading` from the start of the upload
        on, `uploadComplete` only at the end, and the progress in the range
        of the phase. */
    ghost predicate Valid()
      reads this
    {
      (uploading <==> !phase.Choosing?)
      && (uploadComplete <==> phase.Complete?)
      && (intervalActive ==> phase.Sending?)
      && (phase.Choosing? ==> uploadProgress == 0.0)
      && (phase.Sending? ==> 0.0 <= uploadProgress <= 99.5)
      && (phase.Processing? || phase.Complete? ==> uploadProgress == 100.0)
    }

    constructor ()
      ensures Valid()
      ensures files == [] && !uploading && uploadProgress == 0.0 && !uploadComplete
    {
      files := [];
      uploading := false;
      uploadProgress := 0.0;
      uploadComplete := false;
      intervalActive := false;
      phase := Choosing;
    }

    /** `handleFileChange(e)`: appends the chosen files, in order, when the
        input reports any. */
    method HandleFileChange(chosen: Option<seq<FileInfo>>)
      requires Valid()
      modifies this
      ensures Valid()
      ensures files == (if chosen.Some? then old(files) + chosen.value else old(files))
      ensures uploading == old(uploading) && uploadProgress == old(uploadProgress)
      ensures uploadComplete == old(uploadComplete) && phase == old(phase)
      ensures intervalActive == old(intervalActive)
    {
      if chosen.Some? {
        files := files + chosen.value;
      }
    }

    /** `removeFile(index)` */
    method RemoveFile(index: int)
      requires Valid()
      modifies this
      ensures Valid()
      ensures files == RemoveAt(old(files), index)
      ensures uploading == old(uploading) && uploadProgress == old(uploadProgress)
      ensures uploadComplete == old(uploadComplete) && phase == old(phase)
      ensures intervalActive == old(intervalActive)
    {
      files := RemoveAt(files, index);
    }

    /** `handleUpload()`: with no file nothing changes (a toast is shown);
        otherwise the upload starts. The button is disabled while uploading. */
    method HandleUpload() returns (started: bool)
      requires Valid() && !uploading
      modifies this
      ensures Valid()
      ensures started <==> old(files) != []
      ensures !started ==>
        uploading == old(uploading) && phase == old(phase) && intervalActive == old(intervalActive)
      ensures started ==> uploading && intervalActive && phase == Sending(old(files))
      ensures files == old(files) && uploadProgress == old(uploadProgress)
      ensures uploadComplete == old(uploadComplete)
    {
      if |files| == 0 {
        started := false;
        return;
      }
      started := true;
      uploading := true;
      intervalActive := true;
      phase := Sending(files);
    }

    /** One run of the progress interval. Its own ticks never reach 100. */
    method Tick()
      requires Valid() && intervalActive
      modifies this
      ensures Valid()
      ensures uploadProgress == AcceleratedTick(old(uploadProgress)) && uploadProgress < 100.0
      ensures files == old(files) && uploading == old(uploading) && phase == old(phase)
      ensures uploadComplete == old(uploadComplete) && intervalActive
    {
      AcceleratedTickBounds(uploadProgress);
      if uploadProgress >= 100.0 {
        // The interval would stop itself at 100, but only the processing
        // timer, which stops it, ever sets 100.
        assert false;
      } else {
        var next := uploadProgress + 1.0 + (100.0 - uploadProgress) / 20.0;
        uploadProgress := if next <= 99.5 then next else 99.5;
      }
    }

    /** The four-second timer: stops the interval, shows 100% and adds one
        study material per file the upload started with. `now` and `date`
        are the clock readings; the random parts of ids and page counts are
        chosen freely. */
    method ProcessingTimeout(store: StudyMaterialsStore, now: nat, date: string)
      returns (added: seq<StudyMaterial>)
      requires Valid() && phase.Sending?
      modifies this, store
      ensures Valid()
      ensures !intervalActive && uploadProgress == 100.0 && phase == Processing
      ensures exists tags, pages ::
                (|tags| == |old(phase).snapshot| && ValidPageCounts(pages, |old(phase).snapshot|)
                 && added == MaterialsOf(old(phase).snapshot, now, tags, pages, date))
      ensures store.materials == old(store.materials) + added
      ensures files == old(files) && uploading && !uploadComplete
    {
      var snapshot := phase.snapshot;
      intervalActive := false;
      uploadProgress := 100.0;
      var tags: seq<string> :| |tags| == |snapshot| by {
        assert |seq(|snapshot|, _ => "")| == |snapshot|;
      }
      var pages: seq<nat> :| ValidPageCounts(pages, |snapshot|) by {
        assert ValidPageCounts(seq(|snapshot|, _ => 5), |snapshot|);
      }
      added := MaterialsOf(snapshot, now, tags, pages, date);
      store.AddMaterials(added);
      phase := Processing;
    }

    /** The one-second timer: the upload is complete. */
    method CompleteTimeout()
      requires Valid() && phase.Processing?
      modifies this
      ensures Valid()
      ensures uploadComplete && uploading && phase == Complete
      ensures files == old(files) && uploadProgress == old(uploadProgress)
    {
      uploadComplete := true;
      phase := Complete;
    }
  }
}
