/**
 * The multipart body builders of the notices API (src/api/notices.ts). `createNotice` and
 * `updateNotice` fill the body the same way and differ only in verb and path.
 */
module NoticesApi {
  import opened Wrappers
  import opened JsStrings
  import opened Multipart

  const NOTICES_PATH: string := "/api/notices"
  /** The keys, in the order they are appended. */
  const NOTICE_KEYS: seq<string> := ["title", "content", "author", "isPinned", "category", "image"]

  /** `NoticeRequestDto`: `isPinned` and `category` may be left out. */
  datatype NoticeRequest = NoticeRequest(title: string, content: string, author: string,
                                         isPinned: Option<bool>, category: JsOpt)

  /** `String(b)` for a boolean. */
  function BoolString(b: bool): (s: string)
    ensures s == "true" <==> b
    ensures s == "false" <==> !b
  {
    if b then "true" else "false"
  }

  /** `if (isPinned !== undefined) formData.append('isPinned', String(isPinned))` */
  function PinnedPart(isPinned: Option<bool>): Option<Part> {
    if isPinned.Some? then Some(Text(BoolString(isPinned.value))) else None
  }

  /** What a notice body is made of, key by key. */
  function NoticeCandidates(d: NoticeRequest, image: Option<File>): seq<Candidate> {
    [ Candidate("title", Some(Text(d.title))), Candidate("content", Some(Text(d.content))),
      Candidate("author", Some(Text(d.author))), Candidate("isPinned", PinnedPart(d.isPinned)),
      Candidate("category", IfTruthy(d.category)), Candidate("image", IfFile(image)) ]
  }

  /** The `FormData` filling that both builders share, step by step. */
  method FillNotice(formData: FormData, d: NoticeRequest, image: Option<File>)
    requires formData.Valid() && formData.decided == []
    modifies formData
    ensures formData.Valid() && formData.decided == NoticeCandidates(d, image)
  {
    ghost var cs := NoticeCandidates(d, image);
    formData.Append("title", Text(d.title));
    formData.Append("content", Text(d.content));
    formData.Append("author", Text(d.author));
    assert formData.decided == cs[..3];
    if d.isPinned.Some? {
      formData.Append("isPinned", Text(BoolString(d.isPinned.value)));
    } else {
      formData.Skip("isPinned");
    }
    assert formData.decided == cs[..4];
    formData.AppendIfTruthy("category", d.category);
    assert formData.decided == cs[..5];
    formData.AppendIfFile("image", image);
    assert cs == cs[..5] + [cs[5]];
  }

  /** `noticesApi.createNotice(data, image)`: the request it sends. */
  method CreateNotice(d: NoticeRequest, image: Option<File>) returns (req: MultipartRequest)
    ensures req == MultipartRequest(Post, NOTICES_PATH, Present(NoticeCandidates(d, image)))
  {
    var formData := new FormData();
    FillNotice(formData, d, image);
    req := MultipartRequest(Post, NOTICES_PATH, formData.entries);
  }

  /** `noticesApi.updateNotice(id, data, image)`: the same body, sent with PUT to the notice's path. */
  method UpdateNotice(id: nat, d: NoticeRequest, image: Option<File>) returns (req: MultipartRequest)
    ensures req == MultipartRequest(Put, NOTICES_PATH + "/" + DecimalString(id), Present(NoticeCandidates(d, image)))
  {
    var formData := new FormData();
    FillNotice(formData, d, image);
    req := MultipartRequest(Put, NOTICES_PATH + "/" + DecimalString(id), formData.entries);
  }

  lemma NoticeKeysDistinct(d: NoticeRequest, image: Option<File>)
    ensures CandidateKeys(NoticeCandidates(d, image)) == NOTICE_KEYS
    ensures DistinctKeys(NOTICE_KEYS)
  {
    assert CandidateKeys(NoticeCandidates(d, image)) == NOTICE_KEYS;
  }

  /**
   * Key by key: `title`, `content`, `author` always with their values; `isPinned` whenever it
   * is given, as "true" or "false"; `category` only when non-empty; `image` only when supplied.
   */
  lemma NoticeFields(d: NoticeRequest, image: Option<File>)
    ensures var body := Present(NoticeCandidates(d, image));
      && Lookup(body, "title") == Some(Text(d.title))
      && Lookup(body, "content") == Some(Text(d.content))
      && Lookup(body, "author") == Some(Text(d.author))
      && (d.isPinned == Some(false) ==> Lookup(body, "isPinned") == Some(Text("false")))
      && (d.isPinned == Some(true) ==> Lookup(body, "isPinned") == Some(Text("true")))
      && (d.isPinned.None? ==> Lookup(body, "isPinned") == None)
      && (IsTruthy(d.category) ==> Lookup(body, "category") == Some(Text(d.category.s)))
      && (!IsTruthy(d.category) ==> Lookup(body, "category") == None)
      && (image.None? ==> Lookup(body, "image") == None)
  {
    var cs := NoticeCandidates(d, image);
    NoticeKeysDistinct(d, image);
    PresentLookup(cs, 0);
    PresentLookup(cs, 1);
    PresentLookup(cs, 2);
    PresentLookup(cs, 3);
    PresentLookup(cs, 4);
    PresentLookup(cs, 5);
  }

  /** The body opens with `title`, `content`, `author`, and a supplied image is its last entry. */
  lemma NoticeLayout(d: NoticeRequest, image: Option<File>)
    ensures var body := Present(NoticeCandidates(d, image));
      && |body| >= 3
      && body[..3] == [Entry("title", Text(d.title)), Entry("content", Text(d.content)), Entry("author", Text(d.author))]
      && (image.Some? ==> body[|body| - 1] == Entry("image", Blob(image.value)))
      && IsSubsequence(Keys(body), NOTICE_KEYS)
  {
    var cs := NoticeCandidates(d, image);
    var head := cs[..3];
    assert cs == head + cs[3..];
    PresentAppend(head, cs[3..]);
    PresentAllAppended(head);
    assert Present(cs)[..3] == Present(head);
    if image.Some? {
      PresentLast(cs);
    }
    NoticeKeysDistinct(d, image);
    PresentKeysInOrder(cs);
  }
}
