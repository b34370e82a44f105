/** The web layer's upload handling: the extension allow-list and the order
    in which both upload routes validate a request, create the submission
    directory and save the file. Routing, HTTP and `uuid4` are outside the
    model; the submission id is a parameter. */
module App {
  import opened Wrappers
  import opened PyStr
  import opened Llm
  import Base64Processing

  const UploadFolder: string := "uploads"
  const AllowedExtensions: set<string> := {"txt", "pdf", "png", "jpg", "jpeg", "gif"}

  const NoFilePartText: string := "No file part in the request"
  const NoFileSelectedText: string := "No file selected"
  const InvalidTypeText: string := "Invalid file type"
  const UploadedText: string := "File uploaded successfully"
  const ExtractedText: string := "Data Extracted Successfully."

  /** `filename.rsplit('.', 1)[1]`: the text after the last '.'. */
  function Extension(filename: string): string
    requires '.' in filename
  {
    filename[RFind(filename, '.') + 1..]
  }

  /** `allowed_file`. */
  predicate AllowedFile(filename: string)
  {
    '.' in filename && Lower(Extension(filename)) in AllowedExtensions
  }

  /** A name without any '.' is never allowed. */
  lemma NoDotRejected(filename: string)
    requires '.' !in filename
    ensures !AllowedFile(filename)
  {
  }

  /** Only the part after the last '.' decides, compared in lower case. */
  lemma AllowedByLastExtension(stem: string, ext: string)
    requires '.' !in ext
    ensures Extension(stem + "." + ext) == ext
    ensures AllowedFile(stem + "." + ext) <==> Lower(ext) in AllowedExtensions
  {
    var name := stem + "." + ext;
    var n := |stem|;
    assert name[n] == '.';
    assert forall k :: n < k < |name| ==> name[k] == ext[k - n - 1];
    assert RFind(name, '.') == n;
    assert name[n + 1..] == ext;
  }

  /** The check ignores letter case in the extension. */
  lemma AllowedIgnoresCase(stem: string, ext: string)
    requires '.' !in ext
    ensures AllowedFile(stem + "." + ext) <==> AllowedFile(stem + "." + Lower(ext))
  {
    LowerPointwise(ext);
    assert forall i :: 0 <= i < |ext| ==> Lower(ext)[i] != '.';
    AllowedByLastExtension(stem, ext);
    AllowedByLastExtension(stem, Lower(ext));
    LowerIdempotent(ext);
  }

  /** Only the last extension counts: a PDF disguised with a trailing ".exe"
      is refused. */
  lemma DoubleExtensionRefused()
    ensures !AllowedFile("report.pdf.exe")
  {
    AllowedByLastExtension("report.pdf", "exe");
    assert "report.pdf.exe" == "report.pdf" + "." + "exe";
    assert Lower("exe") == "exe";
  }

  /** An earlier extension does not matter when the last one is allowed. */
  lemma InnerExtensionIgnored()
    ensures AllowedFile("scan.tar.pdf")
  {
    AllowedByLastExtension("scan.tar", "pdf");
    assert "scan.tar.pdf" == "scan.tar" + "." + "pdf";
    assert Lower("pdf") == "pdf";
  }

  /** An upper-case extension is accepted. */
  lemma UpperCaseAccepted()
    ensures AllowedFile("INVOICE.PDF")
  {
    AllowedByLastExtension("INVOICE", "PDF");
    assert "INVOICE.PDF" == "INVOICE" + "." + "PDF";
    assert Lower("PDF") == "pdf";
  }

  /** A trailing '.' leaves an empty extension, which is refused. */
  lemma TrailingDotRefused(stem: string)
    ensures !AllowedFile(stem + ".")
  {
    AllowedByLastExtension(stem, "");
    assert stem + "." == stem + "." + "";
  }

  /** An executable is refused. */
  lemma ExecutableRefused()
    ensures !AllowedFile("malware.exe")
  {
    AllowedByLastExtension("malware", "exe");
    assert "malware.exe" == "malware" + "." + "exe";
    assert Lower("exe") == "exe";
  }

  /** The uploaded part of a multipart form. */
  datatype FilePart = FilePart(filename: string, data: seq<Base64Processing.byte>)

  /** How a route responds: a status and a JSON body, or an exception that
      escapes the handler. */
  datatype Body<D> =
    | ErrorBody(error: string)
    | Uploaded(message: string, filename: string, submissionId: string)
    | Processed(message: string, filename: string, submissionId: string, details: D)
  datatype Reply<D> = Respond(status: int, body: Body<D>) | Unhandled(error: string)

  /** The outcome of the three checks, in the order both routes apply them. */
  datatype Verdict = NoFilePart | NoFileSelected | InvalidType | Accepted

  function Screen(form: map<string, FilePart>): (v: Verdict)
    ensures v == NoFilePart <==> "file" !in form
    ensures v == NoFileSelected <==> "file" in form && form["file"].filename == ""
    ensures v == InvalidType <==> "file" in form && form["file"].filename != "" && !AllowedFile(form["file"].filename)
    ensures v == Accepted <==> "file" in form && form["file"].filename != "" && AllowedFile(form["file"].filename)
  {
    if "file" !in form then NoFilePart
    else if form["file"].filename == "" then NoFileSelected
    else if AllowedFile(form["file"].filename) then Accepted
    else InvalidType
  }

  /** The error message of a rejecting verdict. */
  function RejectionText(v: Verdict): string
    requires v != Accepted
  {
    match v
    case NoFilePart => NoFilePartText
    case NoFileSelected => NoFileSelectedText
    case InvalidType => InvalidTypeText
  }

  function SubmissionFolder(submissionId: string): string
  {
    PathJoin(UploadFolder, submissionId)
  }

  function SavedPath(submissionId: string, filename: string): string
  {
    PathJoin(SubmissionFolder(submissionId), filename)
  }

  /** `os.path.join` lets a client-chosen absolute filename replace the
      submission directory: the file is saved at that absolute path. */
  lemma AbsoluteFilenameEscapes(submissionId: string, filename: string)
    requires |filename| > 0 && filename[0] == '/'
    ensures SavedPath(submissionId, filename) == filename
  {
  }

  /** A relative filename is appended to the submission directory after one
      '/'. Nothing removes `..` components, so such a name still leaves the
      directory once the path is resolved. */
  lemma RelativeFilenameJoined(submissionId: string, filename: string)
    requires |filename| > 0 && filename[0] != '/'
    requires |submissionId| > 0 && submissionId[0] != '/'
    ensures SubmissionFolder(submissionId) == UploadFolder + "/" + submissionId
    ensures submissionId[|submissionId| - 1] != '/' ==>
      SavedPath(submissionId, filename) == UploadFolder + "/" + submissionId + "/" + filename
    ensures submissionId[|submissionId| - 1] == '/' ==>
      SavedPath(submissionId, filename) == UploadFolder + "/" + submissionId + filename
  {
    var folder := UploadFolder + "/" + submissionId;
    assert folder[|folder| - 1] == submissionId[|submissionId| - 1];
  }

  /** A name made of parent-directory steps passes the type check. */
  lemma ParentStepsAllowed()
    ensures AllowedFile("../../evil.pdf")
  {
    AllowedByLastExtension("../../evil", "pdf");
    assert "../../evil.pdf" == "../../evil" + "." + "pdf";
    assert Lower("pdf") == "pdf";
  }

  /** A name made of parent-directory steps is joined unchanged, so the saved
      path climbs out of the submission directory and the upload folder. */
  lemma ParentStepsKept()
    ensures SavedPath("id", "../../evil.pdf") == "uploads/id/../../evil.pdf"
  {
    RelativeFilenameJoined("id", "../../evil.pdf");
  }

  /** The directories and files the upload routes have created: a record of
      `os.makedirs` and `file.save`, not a filesystem. */
  class UploadStore {
    var dirs: set<string>
    var files: map<string, seq<Base64Processing.byte>>

    /** Module load creates the upload folder. */
    constructor ()
      ensures dirs == {UploadFolder} && files == map[]
    {
      dirs := {UploadFolder};
      files := map[];
    }

    /** `upload_file`: the directory is made before the type check, so a
        rejected type leaves it behind with nothing saved in it. */
    method UploadFile(form: map<string, FilePart>, submissionId: string) returns (reply: Reply<()>)
      modifies this
      ensures var v := Screen(form);
        (v != Accepted ==> reply == Respond(400, ErrorBody(RejectionText(v)))) &&
        (v == NoFilePart || v == NoFileSelected ==> dirs == old(dirs) && files == old(files)) &&
        (v == InvalidType ==> dirs == old(dirs) + {SubmissionFolder(submissionId)} && files == old(files)) &&
        (v == Accepted ==>
           var name := form["file"].filename;
           dirs == old(dirs) + {SubmissionFolder(submissionId)} &&
           files == old(files)[SavedPath(submissionId, name) := form["file"].data] &&
           reply == Respond(200, Uploaded(UploadedText, name, submissionId)))
    {
      if "file" !in form {
        return Respond(400, ErrorBody(NoFilePartText));
      }
      var file := form["file"];
      if file.filename == "" {
        return Respond(400, ErrorBody(NoFileSelectedText));
      }
      var folder := PathJoin(UploadFolder, submissionId);
      dirs := dirs + {folder};
      // a FileStorage is truthy exactly when its filename is non-empty
      if file.filename != "" && AllowedFile(file.filename) {
        var path := PathJoin(folder, file.filename);
        files := files[path := file.data];
        return Respond(200, Uploaded(UploadedText, file.filename, submissionId));
      }
      return Respond(400, ErrorBody(InvalidTypeText));
    }

    /** `document_processing`: the same checks and effects, then the image
        pipeline runs on the saved file; its result becomes
        `application_details`, and an exception it raises escapes the route. */
    method DocumentProcessing<P, J>(form: map<string, FilePart>, submissionId: string,
                                    svc: Base64Processing.Services<P, J>)
      returns (reply: Reply<Option<J>>, artifacts: seq<Artifact<J>>)
      modifies this
      ensures var v := Screen(form);
        (v != Accepted ==> reply == Respond(400, ErrorBody(RejectionText(v))) && artifacts == []) &&
        (v == NoFilePart || v == NoFileSelected ==> dirs == old(dirs) && files == old(files)) &&
        (v == InvalidType ==> dirs == old(dirs) + {SubmissionFolder(submissionId)} && files == old(files)) &&
        (v == Accepted ==>
           var name := form["file"].filename;
           var path := SavedPath(submissionId, name);
           var out := ReconcileReply(svc.invoke(Base64Processing.ReconcileConversation(path, submissionId, svc)), svc.loads);
           var prior := Base64Processing.InsightsOf(path, submissionId, svc).1;
           dirs == old(dirs) + {SubmissionFolder(submissionId)} &&
           files == old(files)[path := form["file"].data] &&
           artifacts ==
             (if prior.Some? then [prior.value] else []) +
             (if out.Returned? && out.value.Some? then [Artifact(Base64Processing.OutputPath(submissionId), out.value.value)] else []) &&
           reply == (if out.Raised? then Unhandled(out.error)
                     else Respond(200, Processed(ExtractedText, name, submissionId, out.value))))
    {
      artifacts := [];
      if "file" !in form {
        return Respond(400, ErrorBody(NoFilePartText)), [];
      }
      var file := form["file"];
      if file.filename == "" {
        return Respond(400, ErrorBody(NoFileSelectedText)), [];
      }
      var folder := PathJoin(UploadFolder, submissionId);
      dirs := dirs + {folder};
      if file.filename != "" && AllowedFile(file.filename) {
        var path := PathJoin(folder, file.filename);
        files := files[path := file.data];
        var out, _, written := Base64Processing.MatchExtractedWithTemplate(path, submissionId, svc);
        artifacts := written;
        if out.Raised? {
          return Unhandled(out.error), artifacts;
        }
        return Respond(200, Processed(ExtractedText, file.filename, submissionId, out.value)), artifacts;
      }
      return Respond(400, ErrorBody(InvalidTypeText)), [];
    }
  }
}
