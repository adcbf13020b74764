/** The drop-zone upload component of `eduragpt-main/components/file-upload.tsx`:
    a selection bounded by count and size, removal by position, and a
    simulated upload whose progress grows by 5 every 200 ms. Timers are
    separate steps; toasts and the drop zone's own file-type filter are not
    modelled. */
module MainFileUpload {
  import opened Seqs
  import opened Uploads

  /** The component's state: its properties `maxFiles` and `maxSize`, the
      `files`, `uploading` and `uploadProgress` state, whether the progress
      interval is running, and which timer is pending. */
  class FileUploadComponent {
    const maxFiles: nat
    const maxSize: nat
    var files: seq<FileInfo>
    var uploading: bool
    var uploadProgress: int
    var intervalActive: bool
    var phase: UploadPhase

    /** What every handler keeps: the selection within the limits, the
        progress in range, and the flags matching the pending timers. */
    ghost predicate Valid()
      reads this
    {
      WithinLimits(files, maxFiles, maxSize)
      && (uploading <==> !phase.Idle?)
      && (intervalActive ==> phase.Transferring?)
      && (phase.Idle? ==> uploadProgress == 0)
      && (phase.Transferring? ==> 0 <= uploadProgress <= 100 && uploadProgress % 5 == 0)
      && (phase.Finishing? ==> uploadProgress == 100)
    }

    /** A fresh component with the given limits (the defaults are
        `DefaultMaxFiles` and `DefaultMaxSize`). */
    constructor (maxFiles: nat, maxSize: nat)
      ensures Valid() && this.maxFiles == maxFiles && this.maxSize == maxSize
      ensures files == [] && !uploading && uploadProgress == 0 && phase == Idle
    {
      this.maxFiles := maxFiles;
      this.maxSize := maxSize;
      files := [];
      uploading := false;
      uploadProgress := 0;
      intervalActive := false;
      phase := Idle;
    }

    /** `onDrop(acceptedFiles)`: rejects the whole drop when the count would
        pass `maxFiles`, else when a file is larger than `maxSize`; otherwise
        appends the dropped files in order. */
    method OnDrop(dropped: seq<FileInfo>) returns (outcome: DropOutcome)
      requires Valid()
      modifies this
      ensures Valid()
      ensures outcome == CheckDrop(|old(files)|, dropped, maxFiles, maxSize)
      ensures files == (if outcome == Accepted then old(files) + dropped else old(files))
      ensures uploading == old(uploading) && uploadProgress == old(uploadProgress)
      ensures intervalActive == old(intervalActive) && phase == old(phase)
    {
      DropKeepsLimits(files, dropped, maxFiles, maxSize);
      if |files| + |dropped| > maxFiles {
        outcome := TooManyFiles;
        return;
      }
      var oversized := Oversized(dropped, maxSize);
      if |oversized| > 0 {
        outcome := FilesTooLarge;
        return;
      }
      outcome := Accepted;
      files := files + dropped;
    }

    /** `removeFile(index)`: drops the file at that position, if there is one. */
    method RemoveFile(index: int)
      requires Valid()
      modifies this
      ensures Valid()
      ensures files == RemoveAt(old(files), index)
      ensures uploading == old(uploading) && uploadProgress == old(uploadProgress)
      ensures intervalActive == old(intervalActive) && phase == old(phase)
    {
      RemoveKeepsLimits(files, index, maxFiles, maxSize);
      files := RemoveAt(files, index);
    }

    /** `handleUpload()`: with no file selected nothing changes (a toast is
        shown); otherwise the upload starts with the current selection.
        The upload button is disabled while uploading. */
    method HandleUpload() returns (started: bool)
      requires Valid() && !uploading
      modifies this
      ensures Valid()
      ensures started <==> old(files) != []
      ensures !started ==>
        uploading == old(uploading) && phase == old(phase) && intervalActive == old(intervalActive)
      ensures started ==> uploading && intervalActive && phase == Transferring(old(files))
      ensures files == old(files) && uploadProgress == old(uploadProgress)
    {
      if |files| == 0 {
        started := false;
        return;
      }
      started := true;
      uploading := true;
      intervalActive := true;
      phase := Transferring(files);
    }

    /** One run of the progress interval; at 100 it stops itself. */
    method Tick()
      requires Valid() && intervalActive
      modifies this
      ensures Valid()
      ensures uploadProgress == LinearTick(old(uploadProgress))
      ensures intervalActive == (old(uploadProgress) < 100)
      ensures files == old(files) && uploading == old(uploading) && phase == old(phase)
    {
      LinearTickBounds(uploadProgress);
      if uploadProgress >= 100 {
        intervalActive := false;
        uploadProgress := 100;
      } else {
        uploadProgress := uploadProgress + 5;
      }
    }

    /** The four-second timer: stops the interval and shows 100%. */
    method UploadTimeout()
      requires Valid() && phase.Transferring?
      modifies this
      ensures Valid()
      ensures !intervalActive && uploadProgress == 100
      ensures phase == Finishing(old(phase).snapshot)
      ensures files == old(files) && uploading == old(uploading)
    {
      intervalActive := false;
      uploadProgress := 100;
      phase := Finishing(phase.snapshot);
    }

    /** The one-second completion timer: the upload ends, the files the
        handler saw are handed to `onUploadComplete` and counted in the
        message, and the selection and progress are reset. */
    method CompletionTimeout() returns (uploaded: seq<FileInfo>, message: string)
      requires Valid() && phase.Finishing?
      modifies this
      ensures Valid()
      ensures uploaded == old(phase).snapshot && message == UploadMessage(|uploaded|)
      ensures !uploading && files == [] && uploadProgress == 0 && phase == Idle
      ensures intervalActive == old(intervalActive)
    {
      uploading := false;
      uploaded := phase.snapshot;
      message := UploadMessage(|uploaded|);
      files := [];
      uploadProgress := 0;
      phase := Idle;
    }
  }
}
