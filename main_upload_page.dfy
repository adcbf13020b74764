/** The upload page of `eduragpt-main/app/upload/page.tsx`: a file list and a
    simulated upload whose progress grows by 5 every 200 ms, after which the
    page is reset. Nothing reaches the study-material store. Timers are
    separate steps; toasts are not modelled. */
module MainUploadPage {
  import opened Wrappers
  import opened Seqs
  import opened Uploads

  /** The page's `files`, `uploading` and `uploadProgress` state, whether the
      progress interval runs, and which timer is pending. */
  class UploadPageState {
    var files: seq<FileInfo>
    var uploading: bool
    var uploadProgress: int
    var intervalActive: bool
    var phase: UploadPhase

    /** The flags match the pending timers and the progress is in range. */
    ghost predicate Valid()
      reads this
    {
      (uploading <==> !phase.Idle?)
      && (intervalActive ==> phase.Transferring?)
      && (phase.Idle? ==> uploadProgress == 0)
      && (phase.Transferring? ==> 0 <= uploadProgress <= 100 && uploadProgress % 5 == 0)
      && (phase.Finishing? ==> uploadProgress == 100)
    }

    constructor ()
      ensures Valid()
      ensures files == [] && !uploading && uploadProgress == 0 && phase == Idle
    {
      files := [];
      uploading := false;
      uploadProgress := 0;
      intervalActive := false;
      phase := Idle;
    }

    /** `handleFileChange(e)`: appends the chosen files, in order, when the
        input reports any. The input stays enabled during an upload. */
    method HandleFileChange(chosen: Option<seq<FileInfo>>)
      requires Valid()
      modifies this
      ensures Valid()
      ensures files == (if chosen.Some? then old(files) + chosen.value else old(files))
      ensures uploading == old(uploading) && uploadProgress == old(uploadProgress)
      ensures intervalActive == old(intervalActive) && phase == old(phase)
    {
      if chosen.Some? {
        files := files + chosen.value;
      }
    }

    /** `removeFile(index)` */
    method RemoveFile(index: int)
      requires Valid()
      modifies this
      ensures Valid()
      ensures files == RemoveAt(old(files), index)
      ensures uploading == old(uploading) && uploadProgress == old(uploadProgress)
      ensures intervalActive == old(intervalActive) && phase == old(phase)
    {
      files := RemoveAt(files, index);
    }

    /** `handleUpload()`: with no file nothing changes (a toast is shown);
        otherwise the upload starts. The button is disabled while uploading. */
    method HandleUpload() returns (started: bool)
      requires Valid() && !uploading
      modifies this
      ensures Valid()
      ensures started <==> old(files) != []
      ensures !started ==>
        uploading == old(uploading) && phase == old(phase) && intervalActive == old(intervalActive)
      ensures started ==> uploading && intervalActive && phase == Transferring(old(files))
      ensures files == old(files) && uploadProgress == old(uploadProgress)
    {
      if |files| == 0 {
        started := false;
        return;
      }
      started := true;
      uploading := true;
      intervalActive := true;
      phase := Transferring(files);
    }

    /** One run of the progress interval; at 100 it stops itself. */
    method Tick()
      requires Valid() && intervalActive
      modifies this
      ensures Valid()
      ensures uploadProgress == LinearTick(old(uploadProgress))
      ensures intervalActive == (old(uploadProgress) < 100)
      ensures files == old(files) && uploading == old(uploading) && phase == old(phase)
    {
      LinearTickBounds(uploadProgress);
      if uploadProgress >= 100 {
        intervalActive := false;
        uploadProgress := 100;
      } else {
        uploadProgress := uploadProgress + 5;
      }
    }

    /** The four-second timer: stops the interval and shows 100%. */
    method UploadTimeout()
      requires Valid() && phase.Transferring?
      modifies this
      ensures Valid()
      ensures !intervalActive && uploadProgress == 100
      ensures phase == Finishing(old(phase).snapshot)
      ensures files == old(files) && uploading == old(uploading)
    {
      intervalActive := false;
      uploadProgress := 100;
      phase := Finishing(phase.snapshot);
    }

    /** The one-second timer: the upload ends and the page is reset, which
        also drops any file chosen while the upload ran. */
    method CompletionTimeout()
      requires Valid() && phase.Finishing?
      modifies this
      ensures Valid()
      ensures !uploading && files == [] && uploadProgress == 0 && phase == Idle
      ensures intervalActive == old(intervalActive)
    {
      uploading := false;
      files := [];
      uploadProgress := 0;
      phase := Idle;
    }
  }
}
