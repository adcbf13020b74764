/** What the two file-upload components and the two upload pages share: the
    selected-file record, the drop validation with its limits, the two
    simulated progress ticks and the completion message. */
module Uploads {
  import opened Seqs
  import opened Text

  /** The parts of a browser `File` the application reads. */
  datatype FileInfo = FileInfo(name: string, fileType: string, size: nat)

  /** The default `maxFiles` property. */
  const DefaultMaxFiles: nat := 10

  /** The default `maxSize` property: 50 MB in bytes. */
  const DefaultMaxSize: nat := 50 * 1024 * 1024

  /** Which way `onDrop` goes: the count check first, then the size check. */
  datatype DropOutcome = TooManyFiles | FilesTooLarge | Accepted

  /** `acceptedFiles.filter(file => file.size > maxSize)` */
  function Oversized(dropped: seq<FileInfo>, maxSize: nat): (r: seq<FileInfo>)
    ensures r == [] <==> forall i :: 0 <= i < |dropped| ==> dropped[i].size <= maxSize
  {
    var r := Filter(dropped, (f: FileInfo) => f.size > maxSize);
    assert r == [] <==> forall i :: 0 <= i < |dropped| ==> dropped[i].size <= maxSize by {
      if r != [] {
        assert r[0] in r;
      }
      if exists i :: 0 <= i < |dropped| && dropped[i].size > maxSize {
        var i :| 0 <= i < |dropped| && dropped[i].size > maxSize;
        assert dropped[i] in r;
      }
    }
    r
  }

  /** The validation `onDrop` performs, given how many files are already selected. */
  function CheckDrop(current: nat, dropped: seq<FileInfo>, maxFiles: nat, maxSize: nat): (o: DropOutcome)
    ensures o == TooManyFiles <==> current + |dropped| > maxFiles
    ensures o == FilesTooLarge <==>
      current + |dropped| <= maxFiles && exists i :: 0 <= i < |dropped| && dropped[i].size > maxSize
    ensures o == Accepted <==>
      current + |dropped| <= maxFiles && forall i :: 0 <= i < |dropped| ==> dropped[i].size <= maxSize
  {
    if current + |dropped| > maxFiles then TooManyFiles
    else if |Oversized(dropped, maxSize)| > 0 then FilesTooLarge
    else Accepted
  }

  /** The selection after a drop: an accepted drop is appended, any other
      leaves the selection as it was. */
  function ApplyDrop(files: seq<FileInfo>, dropped: seq<FileInfo>, maxFiles: nat, maxSize: nat): seq<FileInfo>
  {
    if CheckDrop(|files|, dropped, maxFiles, maxSize) == Accepted then files + dropped else files
  }

  /** At most `maxFiles` files, none larger than `maxSize`. */
  predicate WithinLimits(files: seq<FileInfo>, maxFiles: nat, maxSize: nat)
  {
    |files| <= maxFiles && forall i :: 0 <= i < |files| ==> files[i].size <= maxSize
  }

  /** Dropping files never breaks the limits. */
  lemma DropKeepsLimits(files: seq<FileInfo>, dropped: seq<FileInfo>, maxFiles: nat, maxSize: nat)
    requires WithinLimits(files, maxFiles, maxSize)
    ensures WithinLimits(ApplyDrop(files, dropped, maxFiles, maxSize), maxFiles, maxSize)
  {
    if CheckDrop(|files|, dropped, maxFiles, maxSize) == Accepted {
      var r := files + dropped;
      forall i | 0 <= i < |r| ensures r[i].size <= maxSize {
        if i >= |files| {
          assert r[i] == dropped[i - |files|];
        }
      }
    }
  }

  /** Removing a file never breaks the limits. */
  lemma RemoveKeepsLimits(files: seq<FileInfo>, index: int, maxFiles: nat, maxSize: nat)
    requires WithinLimits(files, maxFiles, maxSize)
    ensures WithinLimits(RemoveAt(files, index), maxFiles, maxSize)
  {
    if 0 <= index < |files| {
      var r := RemoveAt(files, index);
      forall i | 0 <= i < |r| ensures r[i].size <= maxSize {
        if i >= index {
          assert r[i] == files[i + 1];
        } else {
          assert r[i] == files[i];
        }
      }
    }
  }

  /** The state of the simulated transfer: nothing running, the progress
      interval and the four-second timer running, or the one-second
      completion timer running. Each running phase holds the selection the
      upload handler saw, which is what the completion step reports. */
  datatype UploadPhase = Idle | Transferring(snapshot: seq<FileInfo>) | Finishing(snapshot: seq<FileInfo>)

  // ---------------------------------------------------------------------
  // Progress ticks

  /** The linear tick: `prev >= 100 ? 100 : prev + 5`. */
  function LinearTick(prev: int): int
  {
    if prev >= 100 then 100 else prev + 5
  }

  /** Starting from 0, the linear progress is a multiple of 5 between 0 and 100
      that only grows, by 5 while below 100. */
  lemma LinearTickBounds(prev: int)
    requires 0 <= prev <= 100 && prev % 5 == 0
    ensures 0 <= LinearTick(prev) <= 100 && LinearTick(prev) % 5 == 0
    ensures prev < 100 ==> LinearTick(prev) == prev + 5
    ensures prev == 100 ==> LinearTick(prev) == 100
  {
  }

  /** The accelerating tick: `prev >= 100 ? 100 : Math.min(prev + 1 + (100 - prev) / 20, 99.5)`. */
  function AcceleratedTick(prev: real): real
  {
    if prev >= 100.0 then 100.0
    else
      var next := prev + 1.0 + (100.0 - prev) / 20.0;
      if next <= 99.5 then next else 99.5
  }

  /** Accelerated ticks from below 100 never pass 99.5, strictly grow while
      below 99.5 and stay at 99.5 once there; only the completion step sets 100. */
  lemma AcceleratedTickBounds(prev: real)
    ensures prev < 100.0 ==> AcceleratedTick(prev) <= 99.5
    ensures prev < 99.5 ==> AcceleratedTick(prev) > prev
    ensures prev == 99.5 ==> AcceleratedTick(prev) == 99.5
    ensures 0.0 <= prev <= 99.5 ==> 0.0 <= AcceleratedTick(prev) <= 99.5
    ensures prev >= 100.0 ==> AcceleratedTick(prev) == 100.0
  {
  }

  // ---------------------------------------------------------------------
  // Completion

  /** `Successfully uploaded ${n} file${n !== 1 ? "s" : ""}.` */
  function UploadMessage(n: nat): string
  {
    "Successfully uploaded " + NatToString(n) + " file" + (if n != 1 then "s" else "") + "."
  }

  /** The message uses the plural exactly when the count is not one. */
  lemma UploadMessagePlural(n: nat)
    ensures EndsWith(UploadMessage(n), " files.") <==> n != 1
    ensures n == 1 ==> UploadMessage(n) == "Successfully uploaded 1 file."
  {
    var head := "Successfully uploaded " + NatToString(n);
    if n != 1 {
      assert UploadMessage(n) == head + " files.";
      EndsWithAppend(head, " files.");
    } else {
      assert NatToString(1) == "1";
      var m := UploadMessage(n);
      assert m == "Successfully uploaded 1 file.";
      assert m[|m| - 7..] == "1 file.";
    }
  }
}
