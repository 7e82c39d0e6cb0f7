/**
 * The multipart body builders of the gallery API (src/api/gallery.ts). Creating an item requires
 * an image, which is always the last entry; updating one sends an image only when one is given.
 */
module GalleryApi {
  import opened Wrappers
  import opened JsStrings
  import opened Multipart

  const GALLERY_PATH: string := "/api/gallery"
  /** The keys, in the order they are appended. */
  const GALLERY_KEYS: seq<string> := ["title", "description", "photographer", "category", "image"]

  /** `GalleryRequestDto`: everything but the title may be left out. */
  datatype GalleryRequest = GalleryRequest(title: string, description: JsOpt, photographer: JsOpt, category: JsOpt)

  /** What a gallery body is made of, key by key; `image` is `None` when no file is sent. */
  function GalleryCandidates(d: GalleryRequest, image: Option<File>): seq<Candidate> {
    [ Candidate("title", Some(Text(d.title))), Candidate("description", IfTruthy(d.description)),
      Candidate("photographer", IfTruthy(d.photographer)), Candidate("category", IfTruthy(d.category)),
      Candidate("image", IfFile(image)) ]
  }

  /** `galleryApi.createGallery(data, image)`: the image is not optional here. */
  method CreateGallery(d: GalleryRequest, image: File) returns (req: MultipartRequest)
    ensures req == MultipartRequest(Post, GALLERY_PATH, Present(GalleryCandidates(d, Some(image))))
  {
    var formData := new FormData();
    formData.Append("title", Text(d.title));
    formData.AppendIfTruthy("description", d.description);
    formData.AppendIfTruthy("photographer", d.photographer);
    formData.AppendIfTruthy("category", d.category);
    formData.Append("image", Blob(image));
    assert formData.decided == GalleryCandidates(d, Some(image));
    req := MultipartRequest(Post, GALLERY_PATH, formData.entries);
  }

  /** `galleryApi.updateGallery(id, data, image)` */
  method UpdateGallery(id: nat, d: GalleryRequest, image: Option<File>) returns (req: MultipartRequest)
    ensures req == MultipartRequest(Put, GALLERY_PATH + "/" + DecimalString(id), Present(GalleryCandidates(d, image)))
  {
    var formData := new FormData();
    formData.Append("title", Text(d.title));
    formData.AppendIfTruthy("description", d.description);
    formData.AppendIfTruthy("photographer", d.photographer);
    formData.AppendIfTruthy("category", d.category);
    formData.AppendIfFile("image", image);
    assert formData.decided == GalleryCandidates(d, image);
    req := MultipartRequest(Put, GALLERY_PATH + "/" + DecimalString(id), formData.entries);
  }

  lemma GalleryKeysDistinct(d: GalleryRequest, image: Option<File>)
    ensures CandidateKeys(GalleryCandidates(d, image)) == GALLERY_KEYS
    ensures DistinctKeys(GALLERY_KEYS)
  {
    assert CandidateKeys(GalleryCandidates(d, image)) == GALLERY_KEYS;
  }

  /**
   * `title` is the first entry; `description`, `photographer` and `category` are each sent
   * exactly when non-empty, with their values; the keys keep their fixed order.
   */
  lemma GalleryFields(d: GalleryRequest, image: Option<File>)
    ensures var body := Present(GalleryCandidates(d, image));
      && body != [] && body[0] == Entry("title", Text(d.title))
      && Lookup(body, "description") == IfTruthy(d.description)
      && Lookup(body, "photographer") == IfTruthy(d.photographer)
      && Lookup(body, "category") == IfTruthy(d.category)
      && IsSubsequence(Keys(body), GALLERY_KEYS)
  {
    var cs := GalleryCandidates(d, image);
    GalleryKeysDistinct(d, image);
    PresentLookup(cs, 1);
    PresentLookup(cs, 2);
    PresentLookup(cs, 3);
    PresentKeysInOrder(cs);
  }

  /** The image is the last entry whenever one is sent, and absent from an update without one. */
  lemma GalleryImage(d: GalleryRequest, image: Option<File>)
    ensures var body := Present(GalleryCandidates(d, image));
      && (image.Some? ==> body != [] && body[|body| - 1] == Entry("image", Blob(image.value)))
      && (image.None? ==> Lookup(body, "image") == None)
  {
    var cs := GalleryCandidates(d, image);
    if image.Some? {
      PresentLast(cs);
    } else {
      GalleryKeysDistinct(d, image);
      PresentLookup(cs, 4);
    }
  }
}
