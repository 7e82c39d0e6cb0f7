/**
 * The resource library API (src/api/resources.ts): the four resource categories and their
 * upload settings, and the multipart bodies of single, multiple and PDF uploads.
 */
module ResourcesApi {
  import opened Wrappers
  import opened Multipart

  const UPLOAD_PATH: string := "/api/resources/upload"
  const UPLOAD_MULTIPLE_PATH: string := "/api/resources/upload-multiple"
  const UPLOAD_PDF_PATH: string := "/api/finance/reports/upload"
  const DEFAULT_PAGE: nat := 0
  const DEFAULT_PAGE_SIZE: nat := 20

  /** `ResourceCategory` */
  datatype ResourceCategory = Inspection | Finance | Gallery | StudySupport

  /** The category's string value, as sent to the server and used as a table key. */
  function Key(c: ResourceCategory): string {
    match c
    case Inspection => "inspection"
    case Finance => "finance"
    case Gallery => "gallery"
    case StudySupport => "study-support"
  }

  /** The category a string names, if any. */
  function CategoryFromKey(s: string): (r: Option<ResourceCategory>)
    ensures r.Some? ==> Key(r.value) == s
  {
    if s == "inspection" then Some(Inspection)
    else if s == "finance" then Some(Finance)
    else if s == "gallery" then Some(Gallery)
    else if s == "study-support" then Some(StudySupport)
    else None
  }

  /** The four keys name four different categories, and every category's key reads back. */
  lemma KeysNameCategories(c: ResourceCategory, s: string)
    ensures CategoryFromKey(Key(c)) == Some(c)
    ensures CategoryFromKey(s).None? <==> s !in {"inspection", "finance", "gallery", "study-support"}
  {
  }

  /** One row of `CATEGORY_INFO`. */
  datatype CategoryInfo = CategoryInfo(labelText: string, accept: string, description: string)

  /** `CATEGORY_INFO[category]` */
  function Info(c: ResourceCategory): CategoryInfo {
    match c
    case Inspection => CategoryInfo("시설 점검 결과", "image/*", "시설 점검 결과 이미지를 업로드합니다.")
    case Finance => CategoryInfo("회계내역 공개", "application/pdf", "회계내역 PDF 파일을 업로드합니다.")
    case Gallery => CategoryInfo("갤러리", "image/*", "갤러리 이미지를 업로드합니다.")
    case StudySupport => CategoryInfo("심과함께", "image/*", "심과함께 관련 이미지를 업로드합니다.")
  }

  /** Only the finance category takes PDF files; the other three take images. */
  lemma AcceptByCategory(c: ResourceCategory)
    ensures Info(c).accept == "application/pdf" <==> c == Finance
    ensures c != Finance ==> Info(c).accept == "image/*"
  {
  }

  /** Every category has its own label. */
  lemma LabelsDistinct(c: ResourceCategory, e: ResourceCategory)
    ensures Info(c).labelText == Info(e).labelText <==> c == e
  {
    if c != e {
      assert Info(c).labelText[0] != Info(e).labelText[0];
    }
  }

  /** The query of `getFilesByCategory(category, page?, size?)`. */
  datatype FilesQuery = FilesQuery(category: string, page: nat, size: nat)

  /** Absent page and size arguments take their defaults, 0 and 20. */
  function FilesByCategoryQuery(c: ResourceCategory, page: Option<nat>, size: Option<nat>): (q: FilesQuery)
    ensures q.category == Key(c)
    ensures q.page == (if page.Some? then page.value else 0)
    ensures q.size == (if size.Some? then size.value else 20)
  {
    FilesQuery(Key(c), page.GetOr(DEFAULT_PAGE), size.GetOr(DEFAULT_PAGE_SIZE))
  }

  // ---------------------------------------------------------------- upload bodies

  /** What `uploadFile` sends, key by key. */
  function UploadCandidates(c: ResourceCategory, file: File, title: JsOpt, description: JsOpt): seq<Candidate> {
    [ Candidate("category", Some(Text(Key(c)))), Candidate("file", Some(Blob(file))),
      Candidate("title", IfTruthy(title)), Candidate("description", IfTruthy(description)) ]
  }

  /** `resourcesApi.uploadFile(category, file, title?, description?)` */
  method UploadFile(c: ResourceCategory, file: File, title: JsOpt, description: JsOpt) returns (req: MultipartRequest)
    ensures req == MultipartRequest(Post, UPLOAD_PATH, Present(UploadCandidates(c, file, title, description)))
  {
    var formData := new FormData();
    formData.Append("category", Text(Key(c)));
    formData.Append("file", Blob(file));
    formData.AppendIfTruthy("title", title);
    formData.AppendIfTruthy("description", description);
    assert formData.decided == UploadCandidates(c, file, title, description);
    req := MultipartRequest(Post, UPLOAD_PATH, formData.entries);
  }

  /** The body opens with the category and the file; title and description follow only when non-empty. */
  lemma UploadFileBody(c: ResourceCategory, file: File, title: JsOpt, description: JsOpt)
    ensures var body := Present(UploadCandidates(c, file, title, description));
      && |body| >= 2 && body[..2] == [Entry("category", Text(Key(c))), Entry("file", Blob(file))]
      && Lookup(body, "title") == IfTruthy(title)
      && Lookup(body, "description") == IfTruthy(description)
      && |body| == 2 + (if IsTruthy(title) then 1 else 0) + (if IsTruthy(description) then 1 else 0)
  {
    var cs := UploadCandidates(c, file, title, description);
    assert CandidateKeys(cs) == ["category", "file", "title", "description"];
    PresentLookup(cs, 2);
    PresentLookup(cs, 3);
    assert cs == cs[..2] + cs[2..];
    PresentAppend(cs[..2], cs[2..]);
    PresentAllAppended(cs[..2]);
    OptionalPairSize(cs[2], cs[3]);
    assert cs[2..] == [cs[2], cs[3]];
  }

  /** One `files` candidate per file, in order. */
  function FileCandidates(files: seq<File>): (cs: seq<Candidate>)
    ensures |cs| == |files|
    ensures forall i :: 0 <= i < |files| ==> cs[i] == Candidate("files", Some(Blob(files[i])))
  {
    seq(|files|, i requires 0 <= i < |files| => Candidate("files", Some(Blob(files[i]))))
  }

  function UploadMultipleCandidates(c: ResourceCategory, files: seq<File>, title: JsOpt, description: JsOpt): seq<Candidate> {
    [Candidate("category", Some(Text(Key(c))))] + FileCandidates(files)
      + [Candidate("title", IfTruthy(title)), Candidate("description", IfTruthy(description))]
  }

  /** `resourcesApi.uploadMultipleFiles(category, files, title?, description?)` */
  method UploadMultipleFiles(c: ResourceCategory, files: seq<File>, title: JsOpt, description: JsOpt)
    returns (req: MultipartRequest)
    ensures req == MultipartRequest(Post, UPLOAD_MULTIPLE_PATH, Present(UploadMultipleCandidates(c, files, title, description)))
  {
    var formData := new FormData();
    formData.Append("category", Text(Key(c)));
    var i := 0;
    while i < |files|
      invariant 0 <= i <= |files|
      invariant formData.Valid()
      invariant formData.decided == [Candidate("category", Some(Text(Key(c))))] + FileCandidates(files[..i])
    {
      formData.Append("files", Blob(files[i]));
      assert FileCandidates(files[..i + 1]) == FileCandidates(files[..i]) + [Candidate("files", Some(Blob(files[i])))];
      i := i + 1;
    }
    assert files[..i] == files;
    formData.AppendIfTruthy("title", title);
    formData.AppendIfTruthy("description", description);
    assert formData.decided == UploadMultipleCandidates(c, files, title, description);
    req := MultipartRequest(Post, UPLOAD_MULTIPLE_PATH, formData.entries);
  }

  /**
   * After the category come exactly the given files, one `files` entry each and in their
   * order, and nothing else is sent under that key.
   */
  lemma UploadMultipleBody(c: ResourceCategory, files: seq<File>, title: JsOpt, description: JsOpt)
    ensures var body := Present(UploadMultipleCandidates(c, files, title, description));
      && |body| >= 1 + |files|
      && body[0] == Entry("category", Text(Key(c)))
      && (forall i :: 0 <= i < |files| ==> body[1 + i] == Entry("files", Blob(files[i])))
      && Count(body, "files") == |files|
  {
    var head := [Candidate("category", Some(Text(Key(c))))] + FileCandidates(files);
    var tail := [Candidate("title", IfTruthy(title)), Candidate("description", IfTruthy(description))];
    assert UploadMultipleCandidates(c, files, title, description) == head + tail;
    PresentAppend(head, tail);
    PresentAllAppended(head);
    var body := Present(head + tail);
    PresentCount(FileCandidates(files), "files");
    PresentAppend([Candidate("category", Some(Text(Key(c))))], FileCandidates(files));
    CountAppend(Present([Candidate("category", Some(Text(Key(c))))]), Present(FileCandidates(files)), "files");
    CountAppend(Present(head), Present(tail), "files");
    CountTail(title, description);
    assert Key(c) != "files" by {
      assert Key(c)[0] != 'f' || Key(c)[1] != 'i' || Key(c) == "finance";
    }
    assert Count(Present([Candidate("category", Some(Text(Key(c))))]), "files") == 0 by {
      assert Present([Candidate("category", Some(Text(Key(c))))]) == [Entry("category", Text(Key(c)))];
    }
  }

  /** Two guarded appends add one entry for each guard that holds. */
  lemma OptionalPairSize(a: Candidate, b: Candidate)
    ensures Present([a, b]) == Present([a]) + Present([b])
    ensures |Present([a, b])| == (if a.value.Some? then 1 else 0) + (if b.value.Some? then 1 else 0)
  {
    assert [a, b] == [a] + [b];
    PresentAppend([a], [b]);
  }

  /** The optional title and description add nothing under `files`. */
  lemma CountTail(title: JsOpt, description: JsOpt)
    ensures Count(Present([Candidate("title", IfTruthy(title)), Candidate("description", IfTruthy(description))]), "files") == 0
  {
    var a := Candidate("title", IfTruthy(title));
    var b := Candidate("description", IfTruthy(description));
    OptionalPairSize(a, b);
    var tail := Present([a, b]);
    assert forall i :: 0 <= i < |tail| ==> tail[i].key != "files";
    CountAbsent(tail, "files");
  }

  /** `financeReportApi.uploadPdf(file)` */
  method UploadPdf(file: File) returns (req: MultipartRequest)
    ensures req.verb == Post && req.path == UPLOAD_PDF_PATH
    ensures req.body == [Entry("file", Blob(file))]
    ensures Count(req.body, "file") == 1
  {
    var formData := new FormData();
    formData.Append("file", Blob(file));
    req := MultipartRequest(Post, UPLOAD_PDF_PATH, formData.entries);
  }
}
