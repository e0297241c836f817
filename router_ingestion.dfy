/** The ingestion HTTP endpoints: the router's own extension rule and
    whitelist, the mapping of a failed ingestion report to an HTTP status,
    the single-file upload and the per-file report list of a batch upload.
    Processing a file is a collaborator given as a function. */
module RouterIngestion {
  import opened Common
  import opened Strings
  import opened Utf8
  import opened Models
  import opened FileParser

  /** The router's extension: "." and the lowercased text after the last
      dot when the name has a dot, otherwise the empty string. */
  function RouterExtension(filename: string): (ext: string)
    ensures '.' !in filename ==> ext == ""
  {
    if '.' in filename then
      var pieces := Split(filename, '.');
      "." + Lower(pieces[|pieces| - 1])
    else ""
  }

  /** The extension is the lowercased text after the last dot. */
  lemma RouterExtensionAfterLastDot(filename: string)
    requires '.' in filename
    ensures RouterExtension(filename) == "." + Lower(filename[LastIndexOf(filename, '.') + 1..])
  {
    var pieces := Split(filename, '.');
    SplitLastPiece(filename, '.');
    assert pieces[|pieces| - 1] == filename[LastIndexOf(filename, '.') + 1..];
  }

  /** The router's whitelist. */
  predicate IsSupportedUpload(ext: string) {
    ext == ".txt" || ext == ".pdf" || ext == ".docx" || ext == ".md"
  }

  lemma LowerKeepsOther(s: string, c: char)
    requires c !in s && !('A' <= c <= 'Z') && !('a' <= c <= 'z')
    ensures c !in Lower(s)
  {
    forall i | 0 <= i < |s| ensures Lower(s)[i] != c {
      assert s[i] != c;
    }
  }

  /** For a simple name "stem.ext" the router's extension is ".ext", lowercased. */
  lemma RouterExtensionOfSimpleName(stem: string, ext: string)
    requires '.' !in ext
    ensures RouterExtension(stem + "." + ext) == "." + Lower(ext)
  {
    var name := stem + "." + ext;
    LastIndexOfAfter(stem, '.', ext);
    assert name == stem + ['.'] + ext;
    RouterExtensionAfterLastDot(name);
    assert name[|stem| + 1..] == ext;
  }

  /** For a simple name "stem.ext" the router and the parser find the same
      extension. */
  lemma ExtensionRulesAgreeOnSimpleNames(stem: string, ext: string)
    requires stem != [] && '.' !in stem && '/' !in stem && '.' !in ext && '/' !in ext
    ensures RouterExtension(stem + "." + ext) == SplitExtension(Lower(stem + "." + ext))
    ensures RouterExtension(stem + "." + ext) == "." + Lower(ext)
  {
    RouterExtensionOfSimpleName(stem, ext);
    LowerConcat(stem, ".");
    LowerConcat(stem + ".", ext);
    assert Lower(".") == ".";
    LowerKeepsOther(stem, '.');
    LowerKeepsOther(stem, '/');
    LowerKeepsOther(ext, '.');
    LowerKeepsOther(ext, '/');
    SimpleNameExtension(Lower(stem), Lower(ext));
  }

  /** For a name that is a dot and an extension only, such as ".md", the
      two rules differ: the router accepts it, the parser then rejects it
      as having no extension. */
  lemma ExtensionRulesDisagreeOnDotNames(ext: string)
    requires '.' !in ext && '/' !in ext
    ensures RouterExtension("." + ext) == "." + Lower(ext)
    ensures SplitExtension(Lower("." + ext)) == ""
  {
    var name := "." + ext;
    LastIndexOfAfter([], '.', ext);
    assert name == [] + ['.'] + ext;
    RouterExtensionAfterLastDot(name);
    assert name[1..] == ext;
    LowerConcat(".", ext);
    assert Lower(".") == ".";
    LowerKeepsOther(ext, '.');
    LowerKeepsOther(ext, '/');
    LeadingDotHasNoExtension(Lower(name));
  }

  /** The status code for a Failed report: 422 when the lowercased message
      names a parsing error, an unsupported file type or missing text,
      otherwise 500. */
  function FailureStatusCode(message: string): (code: int)
    ensures code == 422 || code == 500
    ensures code == 422 <==>
      (Contains(Lower(message), "parsing error") || Contains(Lower(message), "unsupported file type")
       || Contains(Lower(message), "no text content found"))
  {
    var m := Lower(message);
    if Contains(m, "parsing error") || Contains(m, "unsupported file type") || Contains(m, "no text content found")
    then 422 else 500
  }

  /** A message that says no text was found anywhere in it is classified 422. */
  lemma NoTextFoundIs422(prefix: string, suffix: string)
    ensures FailureStatusCode(prefix + "no text content found" + suffix) == 422
  {
    var m := prefix + "no text content found" + suffix;
    var lm := Lower(m);
    var k := |prefix|;
    assert lm[k..k + |"no text content found"|] == "no text content found" by {
      forall i | 0 <= i < |"no text content found"|
        ensures lm[k + i] == "no text content found"[i]
      {
        assert m[k + i] == "no text content found"[i];
      }
    }
    ContainsAt(lm, "no text content found", k);
  }

  /** What processing a file produced: a report, or an exception with its
      text (including errors while reading the upload). */
  datatype ProcessOutcome = Report(status: IngestionStatus) | Raised(error: string)

  /** An uploaded file: its name ("" when the client sent none) and bytes. */
  datatype UploadedFile = UploadedFile(filename: string, content: seq<Byte>)

  /** The HTTP answer of the single-file endpoint. */
  datatype UploadResponse = Accepted(report: IngestionStatus) | HttpError(code: int, detail: string)

  const SupportedList: string := ".txt, .pdf, .docx, .md"

  /** The detail prefix of the endpoint's generic 500 answer. */
  const UnexpectedUploadError: string := "An unexpected error occurred while processing the file: "

  /** `upload_file_for_ingestion`. A Failed report whose message is None
      makes `.lower()` raise, which the generic handler turns into 500. */
  function UploadFileForIngestion(file: UploadedFile, process: UploadedFile -> ProcessOutcome): (r: UploadResponse)
    ensures file.filename == "" ==> r == HttpError(400, "Filename cannot be empty.")
    ensures file.filename != "" && !IsSupportedUpload(RouterExtension(file.filename)) ==>
      r == HttpError(400, "Unsupported file type: " + RouterExtension(file.filename)
                          + ". Supported types are: " + SupportedList)
    ensures r.Accepted? <==>
      file.filename != "" && IsSupportedUpload(RouterExtension(file.filename))
      && process(file).Report? && process(file).status.status != "Failed"
    ensures r.Accepted? ==> r.report == process(file).status
    ensures (file.filename != "" && IsSupportedUpload(RouterExtension(file.filename))
             && process(file).Report? && process(file).status.status == "Failed"
             && process(file).status.message.Some?) ==>
      r == HttpError(FailureStatusCode(process(file).status.message.value), process(file).status.message.value)
    ensures (file.filename != "" && IsSupportedUpload(RouterExtension(file.filename))
             && process(file).Report? && process(file).status.status == "Failed"
             && process(file).status.message.None?) ==>
      r == HttpError(500, UnexpectedUploadError + "'NoneType' object has no attribute 'lower'")
    ensures (file.filename != "" && IsSupportedUpload(RouterExtension(file.filename))
             && process(file).Raised?) ==>
      r == HttpError(500, UnexpectedUploadError + process(file).error)
  {
    if file.filename == "" then
      HttpError(400, "Filename cannot be empty.")
    else
      var ext := RouterExtension(file.filename);
      if !IsSupportedUpload(ext) then
        HttpError(400, "Unsupported file type: " + ext + ". Supported types are: " + SupportedList)
      else
        match process(file)
        case Raised(e) =>
          HttpError(500, UnexpectedUploadError + e)
        case Report(st) =>
          if st.status != "Failed" then Accepted(st)
          else
            match st.message
            case None =>
              HttpError(500, UnexpectedUploadError + "'NoneType' object has no attribute 'lower'")
            case Some(m) => HttpError(FailureStatusCode(m), m)
  }

  /** The report the batch endpoint gives for one file. */
  function BatchReport(file: UploadedFile, process: UploadedFile -> ProcessOutcome): IngestionStatus {
    if file.filename == "" then
      StatusWithMessage("Unknown_File", "Failed", "Filename cannot be empty.")
    else
      var ext := RouterExtension(file.filename);
      if !IsSupportedUpload(ext) then
        StatusWithMessage(file.filename, "Skipped", "Unsupported file type: " + ext + ". Supported: " + SupportedList)
      else
        match process(file)
        case Report(st) => st
        case Raised(e) => StatusWithMessage(file.filename, "Failed", "Unexpected error: " + e)
  }

  /** Whether the batch endpoint hands the file to processing at all. */
  predicate IsProcessed(file: UploadedFile) {
    file.filename != "" && IsSupportedUpload(RouterExtension(file.filename))
  }

  /** The files handed to processing, in order. */
  function ProcessedFiles(files: seq<UploadedFile>): (r: seq<UploadedFile>)
    ensures |r| <= |files|
    ensures forall f :: f in r ==> f in files && IsProcessed(f)
  {
    if files == [] then []
    else if IsProcessed(files[0]) then [files[0]] + ProcessedFiles(files[1..])
    else ProcessedFiles(files[1..])
  }

  lemma {:induction false} ProcessedFilesAppend(files: seq<UploadedFile>, f: UploadedFile)
    ensures ProcessedFiles(files + [f]) == ProcessedFiles(files) + (if IsProcessed(f) then [f] else [])
    decreases |files|
  {
    if files != [] {
      assert (files + [f])[1..] == files[1..] + [f];
      ProcessedFilesAppend(files[1..], f);
    }
  }

  datatype BatchResponse = Reports(reports: seq<IngestionStatus>) | BatchRejected(code: int, detail: string)

  /** One file of the batch: its report, and whether it went to processing. */
  method BatchFile(file: UploadedFile, process: UploadedFile -> ProcessOutcome)
    returns (report: IngestionStatus, handed: bool)
    ensures report == BatchReport(file, process)
    ensures handed <==> IsProcessed(file)
  {
    if file.filename == "" {
      return StatusWithMessage("Unknown_File", "Failed", "Filename cannot be empty."), false;
    }
    var ext := RouterExtension(file.filename);
    if !IsSupportedUpload(ext) {
      return StatusWithMessage(file.filename, "Skipped",
        "Unsupported file type: " + ext + ". Supported: " + SupportedList), false;
    }
    var outcome := process(file);
    match outcome {
      case Report(st) =>
        report := st;
      case Raised(e) =>
        report := StatusWithMessage(file.filename, "Failed", "Unexpected error: " + e);
    }
    handed := true;
  }

  /** The batch loop's invariant after the first `n` files. */
  predicate BatchSoFar(files: seq<UploadedFile>, n: nat, process: UploadedFile -> ProcessOutcome,
                       statusReports: seq<IngestionStatus>, processed: seq<UploadedFile>)
    requires n <= |files|
  {
    && |statusReports| == n
    && (forall i :: 0 <= i < n ==> statusReports[i] == BatchReport(files[i], process))
    && processed == ProcessedFiles(files[..n])
  }

  /** One more file keeps the batch loop's invariant. */
  lemma BatchSoFarStep(files: seq<UploadedFile>, n: nat, process: UploadedFile -> ProcessOutcome,
                       statusReports: seq<IngestionStatus>, processed: seq<UploadedFile>)
    requires n < |files| && BatchSoFar(files, n, process, statusReports, processed)
    ensures BatchSoFar(files, n + 1, process, statusReports + [BatchReport(files[n], process)],
                       processed + (if IsProcessed(files[n]) then [files[n]] else []))
  {
    assert files[..n + 1] == files[..n] + [files[n]];
    ProcessedFilesAppend(files[..n], files[n]);
  }

  /** `upload_multiple_files_for_ingestion`: an empty request is rejected
      with 400; otherwise exactly one report per file, in input order, and
      only files with a name and a supported extension are processed. */
  method UploadMultipleFiles(files: seq<UploadedFile>, process: UploadedFile -> ProcessOutcome)
    returns (r: BatchResponse, processed: seq<UploadedFile>)
    ensures files == [] ==> r == BatchRejected(400, "No files provided.") && processed == []
    ensures files != [] ==> r.Reports? && |r.reports| == |files|
    ensures r.Reports? ==> forall i :: 0 <= i < |files| ==> r.reports[i] == BatchReport(files[i], process)
    ensures processed == ProcessedFiles(files)
  {
    if files == [] {
      return BatchRejected(400, "No files provided."), [];
    }
    var statusReports: seq<IngestionStatus> := [];
    processed := [];
    for n := 0 to |files|
      invariant BatchSoFar(files, n, process, statusReports, processed)
    {
      var file := files[n];
      var report, handed := BatchFile(file, process);
      BatchSoFarStep(files, n, process, statusReports, processed);
      if handed {
        processed := processed + [file];
      } else {
        assert processed + [] == processed;
      }
      statusReports := statusReports + [report];
    }
    assert files[..|files|] == files;
    return Reports(statusReports), processed;
  }

  /** Reports for files that are not processed: a nameless file is Failed
      under the name "Unknown_File", an unsupported one is Skipped under its
      own name; neither carries counts. */
  lemma UnprocessedReports(file: UploadedFile, process: UploadedFile -> ProcessOutcome)
    requires !IsProcessed(file)
    ensures var st := BatchReport(file, process);
      && st.entitiesAdded == 0 && st.relationshipsAdded == 0
      && (file.filename == "" ==> st.filename == "Unknown_File" && st.status == "Failed")
      && (file.filename != "" ==> st.filename == file.filename && st.status == "Skipped")
  {
  }
}
