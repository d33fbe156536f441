/** The report download endpoint: a file name that could leave the reports
    directory is refused, a missing report is a 404, and any other is served
    as a PDF. The directory's contents are an input: the set of names it
    holds. */
module FilesRoute {
  import opened Wrappers
  import opened Strings
  import opened AuditTypes
  import opened Pipeline

  /** The name contains no "..", no "/" and no "\". */
  predicate IsSafeFilename(filename: string) {
    !Contains(filename, "..") && !Contains(filename, "/") && !Contains(filename, "\\")
  }

  /** The file response: where it is read from, its media type and its
      download name. */
  datatype FileResponse = FileResponse(path: string, mediaType: string, filename: string)

  const ReportsDir: string := "generated_reports"

  const InvalidFilename: HttpError := HttpError(400, Plain("Invalid filename"))
  const FileNotFound: HttpError := HttpError(404, Plain("File not found"))

  /** `get_file`, with `present` the names the reports directory holds. */
  function GetFile(filename: string, present: set<string>): (r: Result<FileResponse, HttpError>)
    ensures !IsSafeFilename(filename) ==> r == Failure(InvalidFilename)
    ensures IsSafeFilename(filename) && filename !in present ==> r == Failure(FileNotFound)
    ensures r.Success? <==> IsSafeFilename(filename) && filename in present
    ensures r.Success? ==> r.value == FileResponse(ReportsDir + "/" + filename, "application/pdf", filename)
  {
    if !IsSafeFilename(filename) then Failure(InvalidFilename)
    else if filename !in present then Failure(FileNotFound)
    else Success(FileResponse(ReportsDir + "/" + filename, "application/pdf", filename))
  }

  /** A name that passes the check is a single path component: it has no
      separator and no parent reference anywhere. */
  lemma SafeNameIsOneComponent(filename: string)
    requires IsSafeFilename(filename)
    ensures forall i :: 0 <= i < |filename| ==> filename[i] != '/' && filename[i] != '\\'
    ensures forall i :: 0 <= i < |filename| - 1 ==> !(filename[i] == '.' && filename[i + 1] == '.')
  {
    forall i | 0 <= i < |filename|
      ensures filename[i] != '/' && filename[i] != '\\'
    {
      assert !OccursAt(filename, "/", i) && !OccursAt(filename, "\\", i);
      assert filename[i..i + 1] == [filename[i]];
    }
    forall i | 0 <= i < |filename| - 1
      ensures !(filename[i] == '.' && filename[i + 1] == '.')
    {
      assert !OccursAt(filename, "..", i);
      assert filename[i..i + 2] == [filename[i], filename[i + 1]];
    }
  }

  /** The name of the report of an audit. */
  function ReportFilename(auditId: string): string {
    "report_" + auditId + ".pdf"
  }

  /** Every report name the pipeline generates passes the check, so the URL
      it gives out is served whenever the report exists. */
  lemma GeneratedReportNamesAreSafe(uuidHex: string, present: set<string>)
    requires |uuidHex| == 32 && IsLowerHex(uuidHex)
    ensures IsSafeFilename(ReportFilename(AuditId(uuidHex)))
    ensures ReportFilename(AuditId(uuidHex)) in present ==>
              GetFile(ReportFilename(AuditId(uuidHex)), present).Success?
  {
    var name := ReportFilename(AuditId(uuidHex));
    var id := AuditId(uuidHex);
    assert name == "report_" + id + ".pdf";
    assert forall i :: 0 <= i < |name| ==> name[i] != '/' && name[i] != '\\' by {
      forall i | 0 <= i < |name|
        ensures name[i] != '/' && name[i] != '\\'
      {
        if 7 <= i < 19 {
          assert name[i] == id[i - 7];
          if i >= 11 {
            assert id[i - 7] == id[4..][i - 11];
          }
        }
      }
    }
    assert forall i :: 0 <= i < |name| - 1 ==> !(name[i] == '.' && name[i + 1] == '.') by {
      forall i | 0 <= i < |name| - 1
        ensures !(name[i] == '.' && name[i + 1] == '.')
      {
        if 7 <= i < 19 {
          assert name[i] == id[i - 7];
          if i >= 11 {
            assert id[i - 7] == id[4..][i - 11];
          }
        }
      }
    }
    NoCharNoSub(name, "/");
    NoCharNoSub(name, "\\");
    NoPairNoSub(name);
  }

  /** A one-character substring that is not any character of `s` is absent. */
  lemma NoCharNoSub(s: string, sub: string)
    requires |sub| == 1
    requires forall i :: 0 <= i < |s| ==> s[i] != sub[0]
    ensures !Contains(s, sub)
  {
    forall j | 0 <= j < |s|
      ensures !OccursAt(s, sub, j)
    {
      assert s[j] != sub[0];
    }
    assert forall j :: !OccursAt(s, sub, j);
  }

  /** A string with no two adjacent dots does not contain "..". */
  lemma NoPairNoSub(s: string)
    requires forall i :: 0 <= i < |s| - 1 ==> !(s[i] == '.' && s[i + 1] == '.')
    ensures !Contains(s, "..")
  {
    forall j | 0 <= j < |s| - 1
      ensures !OccursAt(s, "..", j)
    {
      assert !(s[j] == '.' && s[j + 1] == '.');
    }
    assert forall j :: !OccursAt(s, "..", j);
  }
}
