/** Downloading an export: stream to a temporary file, validate it, replace the destination.
    Every call into the operating system or the network may fail. */
module ExportDownload {
  import opened Prelude

  type Path = string
  type Bytes = seq<bv8>

  /** How a call fails; `Interrupt` is an exception outside the class `Exception`. */
  datatype Fault = NetFault | DiskFault | OtherFault | Interrupt

  datatype Error = JobError | ApiError | AuthenticationError | FileError | Unexpected | Interrupted

  datatype ContentLength = NoLength | BadLength | Length(bytes: int)

  /** `fault` strikes before the chunk with its number is written, or at the close of the file. */
  datatype Response = Response(mediaType: string, length: ContentLength, chunks: seq<Bytes>, fault: Option<(nat, Fault)>)

  datatype Reply = AuthFailed | RequestFailed | Got(response: Response)

  datatype Removal = Removed | AlreadyGone | RemovalFails

  /** The world one call meets, stage by stage. */
  datatype World = World(jobFinished: bool, hasUrl: bool, fileName: Option<Path>,
                         makeDirFails: bool, reply: Reply, tempFault: Option<Fault>,
                         zipFault: Option<Fault>, replaceFault: Option<Fault>, removal: Removal)

  datatype Outcome = Returned(path: Path) | Failed(error: Error)

  predicate RejectedMedia(m: string) {
    m in {"text/html", "application/xhtml+xml", "application/json", "text/json"} ||
    (|m| >= 5 && m[|m| - 5..] == "+json")
  }

  /** The non-empty chunks, joined; empty ones are skipped. */
  function Concat(chunks: seq<Bytes>): Bytes {
    if chunks == [] then [] else Concat(chunks[..|chunks| - 1]) + chunks[|chunks| - 1]
  }

  predicate LengthAgrees(l: ContentLength, n: nat) {
    match l case NoLength => true case BadLength => false case Length(b) => b == n
  }

  predicate StreamsFully(r: Response) {
    r.fault.Some? ==> r.fault.value.0 > |r.chunks|
  }

  /** Everything the promise of the method rests on. */
  predicate Succeeds(w: World, isZip: Bytes -> bool) {
    && w.jobFinished && w.hasUrl && w.fileName.Some? && !w.makeDirFails
    && w.reply.Got? && !RejectedMedia(w.reply.response.mediaType)
    && LengthAgrees(w.reply.response.length, |Concat(w.reply.response.chunks)|)
    && w.tempFault.None? && StreamsFully(w.reply.response)
    && w.zipFault.None? && isZip(Concat(w.reply.response.chunks))
    && w.replaceFault.None?
  }

  predicate LengthUsable(l: ContentLength) { l.NoLength? || (l.Length? && l.bytes >= 0) }

  /** The call gets as far as creating its temporary file. */
  predicate TempMade(w: World) {
    && w.jobFinished && w.hasUrl && w.fileName.Some? && !w.makeDirFails
    && w.reply.Got? && !RejectedMedia(w.reply.response.mediaType) && LengthUsable(w.reply.response.length)
    && w.tempFault.None?
  }

  /** What stops the call once the file exists: the first of a fault while streaming, a short or
      long download, a fault while validating, a file that is no ZIP, and a fault while replacing. */
  function Strikes(w: World, isZip: Bytes -> bool): Option<Fault>
    requires TempMade(w)
  {
    var response := w.reply.response;
    if !StreamsFully(response) then Some(response.fault.value.1)
    else if !LengthAgrees(response.length, |Concat(response.chunks)|) then Some(OtherFault)
    else if w.zipFault.Some? then w.zipFault
    else if !isZip(Concat(response.chunks)) then Some(OtherFault)
    else w.replaceFault
  }

  /** The temporary file outlives the call: it was made, and then either an exception that is no
      `Exception` ended the call, which skips the clean-up, or any other did and the removal failed. */
  predicate LeftBehind(w: World, isZip: Bytes -> bool) {
    TempMade(w) && Strikes(w, isZip).Some? && (Strikes(w, isZip) == Some(Interrupt) || w.removal == RemovalFails)
  }

  /** A call fails before the file is made, or is struck after; only these end it early. */
  lemma FailsEarlyOrStruck(w: World, isZip: Bytes -> bool)
    ensures Succeeds(w, isZip) <==> TempMade(w) && Strikes(w, isZip).None?
  {
  }

  /** An interrupt in mid-stream: everything before it went well, and the file stays although it
      could have been removed. */
  lemma InterruptLeavesFile(isZip: Bytes -> bool)
    ensures var response := Response("application/zip", Length(2), [[0x50], [0x4b]], Some((1, Interrupt)));
            var w := World(true, true, Some("out/results.zip"), false, Got(response), None, None, None, Removed);
            LeftBehind(w, isZip) && !Succeeds(w, isZip)
  {
  }

  /** Around the network both kinds of fault are caught, one by one; around files a network fault would
      be caught as the file fault it is a kind of. */
  function StageError(f: Fault): Error {
    match f case NetFault => ApiError case DiskFault => FileError case OtherFault => Unexpected case Interrupt => Interrupted
  }

  function DiskStageError(f: Fault): Error {
    match f case NetFault => FileError case DiskFault => FileError case OtherFault => Unexpected case Interrupt => Interrupted
  }

  /** What a failed call raises before any clean-up, from the first thing that goes wrong. */
  ghost predicate RaisedFor(w: World, isZip: Bytes -> bool, e: Error) {
    if !w.jobFinished then e == JobError
    else if !w.hasUrl || w.fileName == None then e == ApiError
    else if w.makeDirFails then e == FileError
    else
      match w.reply
      case AuthFailed => e == AuthenticationError
      case RequestFailed => e == ApiError
      case Got(response) =>
        var length, n := response.length, |Concat(response.chunks)|;
        if RejectedMedia(response.mediaType) || length.BadLength? || (length.Length? && length.bytes < 0) then e == ApiError
        else if w.tempFault.Some? then RaisedByNetwork(w.tempFault.value, e)
        else if response.fault.Some? && response.fault.value.0 <= |response.chunks| then RaisedByNetwork(response.fault.value.1, e)
        else if length.Length? && length.bytes != n then e == ApiError
        else if w.zipFault.Some? then RaisedByFiles(w.zipFault.value, e)
        else if !isZip(Concat(response.chunks)) then e == ApiError
        else w.replaceFault.Some? && RaisedByFiles(w.replaceFault.value, e)
  }

  ghost predicate RaisedByNetwork(f: Fault, e: Error) {
    && (e == ApiError <==> f == NetFault) && (e == FileError <==> f == DiskFault)
    && (e == Unexpected <==> f == OtherFault) && (e == Interrupted <==> f == Interrupt)
  }

  ghost predicate RaisedByFiles(f: Fault, e: Error) {
    && (e == FileError <==> f == NetFault || f == DiskFault)
    && (e == Unexpected <==> f == OtherFault) && (e == Interrupted <==> f == Interrupt)
  }

  /** A call succeeds exactly when there is nothing for it to raise. */
  lemma SucceedsIff(w: World, isZip: Bytes -> bool)
    ensures Succeeds(w, isZip) <==> forall e :: !RaisedFor(w, isZip, e)
  {
    if forall e :: !RaisedFor(w, isZip, e) {
      assert !RaisedFor(w, isZip, JobError) && !RaisedFor(w, isZip, ApiError) && !RaisedFor(w, isZip, AuthenticationError);
      assert !RaisedFor(w, isZip, FileError) && !RaisedFor(w, isZip, Unexpected) && !RaisedFor(w, isZip, Interrupted);
    }
  }

  /** What is taken for an error page instead of a file: HTML, and JSON of any kind. */
  lemma RejectedMediaAre(m: string)
    ensures RejectedMedia(m) <==>
            || m == "text/html" || m == "application/xhtml+xml" || m == "application/json" || m == "text/json"
            || exists kind :: m == kind + "+json"
  {
    if |m| >= 5 && m[|m| - 5..] == "+json" { assert m == m[..|m| - 5] + "+json"; }
    if kind :| m == kind + "+json" { assert m[|m| - 5..] == "+json"; }
  }

  /** The chunks come one after the other. */
  lemma {:induction false} ConcatSplit(before: seq<Bytes>, chunk: Bytes, after: seq<Bytes>)
    ensures Concat(before + [chunk] + after) == Concat(before) + chunk + Concat(after)
  {
    var all, n := before + [chunk] + after, |after| - 1;
    if after == [] {
      assert all[..|all| - 1] == before;
    } else {
      assert all[..|all| - 1] == before + [chunk] + after[..n];
      ConcatSplit(before, chunk, after[..n]);
    }
  }

  class FileSystem {
    var files: map<Path, Bytes>
    var openResponses: nat

    /** `download_export_results`. `temp` is the name the temporary file would get. */
    method Download(w: World, temp: Path, isZip: Bytes -> bool) returns (r: Outcome)
      requires temp !in files && w.fileName != Some(temp)
      modifies this
      ensures openResponses == old(openResponses)
      ensures r.Returned? <==> Succeeds(w, isZip)
      ensures r.Returned? ==>
                var content := Concat(w.reply.response.chunks);
                && w.fileName == Some(r.path)
                && files == old(files)[r.path := content]
                && isZip(content)
                && (w.reply.response.length.Length? ==> |content| == w.reply.response.length.bytes)
      ensures r.Failed? ==> files - {temp} == old(files)
      ensures r.Failed? ==> (temp in files <==> LeftBehind(w, isZip))
      ensures r.Failed? && TempMade(w) ==>
                && (r.error == Interrupted <==> Strikes(w, isZip) == Some(Interrupt))
                && (w.removal == RemovalFails && r.error != Interrupted ==> r.error == FileError)
      ensures r.Failed? && (!TempMade(w) || w.removal != RemovalFails || r.error == Interrupted) ==> RaisedFor(w, isZip, r.error)
    {
      if !w.jobFinished { return Failed(JobError); }
      if !w.hasUrl { return Failed(ApiError); }
      if w.fileName.None? { return Failed(ApiError); }
      var outputPath := w.fileName.value;
      var error: Option<Error>, tempPath: Option<Path> := Fetch(w, outputPath, temp, isZip);
      if error.None? { return Returned(outputPath); }
      if error != Some(Interrupted) && tempPath.Some? {
        match w.removal {
          case Removed => files := files - {tempPath.value};
          case AlreadyGone => files := files - {tempPath.value};
          case RemovalFails => return Failed(FileError);
        }
      }
      r := Failed(error.value);
    }

    /** The body of the try block: the error it raises, and the temporary path then set. */
    method Fetch(w: World, outputPath: Path, temp: Path, isZip: Bytes -> bool)
      returns (error: Option<Error>, tempPath: Option<Path>)
      requires temp !in files && outputPath != temp
      requires w.jobFinished && w.hasUrl && w.fileName == Some(outputPath)
      modifies this
      ensures openResponses == old(openResponses)
      ensures error.None? <==> Succeeds(w, isZip)
      ensures error.None? ==> files == old(files)[outputPath := Concat(w.reply.response.chunks)]
      ensures error.Some? && tempPath.None? ==> files == old(files)
      ensures error.Some? && tempPath.Some? ==>
                tempPath == Some(temp) && temp in files && files == old(files)[temp := files[temp]]
      ensures error.Some? ==> RaisedFor(w, isZip, error.value)
      ensures error.Some? ==> (tempPath.Some? <==> TempMade(w))
      ensures error.Some? && TempMade(w) ==>
                Strikes(w, isZip).Some? && (error == Some(Interrupted) <==> Strikes(w, isZip) == Some(Interrupt))
    {
      tempPath := None;
      if w.makeDirFails { return Some(FileError), None; }
      if w.reply.AuthFailed? { return Some(AuthenticationError), None; }
      if w.reply.RequestFailed? { return Some(ApiError), None; }
      var response := w.reply.response;
      openResponses := openResponses + 1;
      error, tempPath := Receive(w, response, outputPath, temp, isZip);
      openResponses := openResponses - 1;
    }

    method Receive(w: World, response: Response, outputPath: Path, temp: Path, isZip: Bytes -> bool)
      returns (error: Option<Error>, tempPath: Option<Path>)
      requires temp !in files && outputPath != temp
      requires w.jobFinished && w.hasUrl && w.fileName == Some(outputPath) && !w.makeDirFails && w.reply == Got(response)
      modifies this`files
      ensures error.None? <==>
                && !RejectedMedia(response.mediaType) && LengthAgrees(response.length, |Concat(response.chunks)|)
                && w.tempFault.None? && StreamsFully(response)
                && w.zipFault.None? && isZip(Concat(response.chunks)) && w.replaceFault.None?
      ensures error.None? ==> files == old(files)[outputPath := Concat(response.chunks)]
      ensures error.Some? && tempPath.None? ==> files == old(files)
      ensures error.Some? && tempPath.Some? ==>
                tempPath == Some(temp) && temp in files && files == old(files)[temp := files[temp]]
      ensures error.Some? ==> RaisedFor(w, isZip, error.value)
      ensures error.Some? ==> (tempPath.Some? <==> TempMade(w))
      ensures error.Some? && TempMade(w) ==>
                Strikes(w, isZip).Some? && (error == Some(Interrupted) <==> Strikes(w, isZip) == Some(Interrupt))
    {
      tempPath := None;
      if RejectedMedia(response.mediaType) { return Some(ApiError), None; }
      if response.length.BadLength? { return Some(ApiError), None; }
      if response.length.Length? && response.length.bytes < 0 { return Some(ApiError), None; }
      if w.tempFault.Some? { return Some(StageError(w.tempFault.value)), None; }
      files := files[temp := []];
      tempPath := Some(temp);
      var fault, downloaded := WriteChunks(response, temp);
      if fault.Some? { return Some(StageError(fault.value)), tempPath; }
      if response.length.Length? && downloaded != response.length.bytes { return Some(ApiError), tempPath; }
      if w.zipFault.Some? { return Some(DiskStageError(w.zipFault.value)), tempPath; }
      if !isZip(files[temp]) { return Some(ApiError), tempPath; }
      if w.replaceFault.Some? { return Some(DiskStageError(w.replaceFault.value)), tempPath; }
      files := files[outputPath := files[temp]] - {temp};
      tempPath := None;
      error := None;
    }

    /** The chunks written to the temporary file, until a fault strikes. */
    method WriteChunks(response: Response, temp: Path) returns (fault: Option<Fault>, downloaded: nat)
      requires temp in files && files[temp] == []
      modifies this`files
      ensures temp in files && files == old(files)[temp := files[temp]]
      ensures fault == if StreamsFully(response) then None else Some(response.fault.value.1)
      ensures fault.None? ==> files[temp] == Concat(response.chunks) && downloaded == |Concat(response.chunks)|
    {
      downloaded := 0;
      for i := 0 to |response.chunks|
        invariant files == old(files)[temp := Concat(response.chunks[..i])]
        invariant downloaded == |Concat(response.chunks[..i])|
        invariant response.fault.Some? ==> response.fault.value.0 >= i
      {
        if response.fault.Some? && response.fault.value.0 == i { return Some(response.fault.value.1), downloaded; }
        var chunk := response.chunks[i];
        assert response.chunks[..i + 1][..i] == response.chunks[..i];
        if |chunk| == 0 {
          assert Concat(response.chunks[..i]) + chunk == Concat(response.chunks[..i]);
          continue;
        }
        files := files[temp := files[temp] + chunk];
        downloaded := downloaded + |chunk|;
      }
      assert response.chunks[..|response.chunks|] == response.chunks;
      fault := None;
      if response.fault.Some? && response.fault.value.0 == |response.chunks| { fault := Some(response.fault.value.1); }
    }
  }
}
