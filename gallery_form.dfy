/**
 * The gallery create/edit form (src/modules/gallery/GalleryFormPage.tsx): creating requires
 * an image, editing may replace it, and the page state the load effect, the picker and the
 * submit handler update.
 */
module GalleryForm {
  import opened Wrappers
  import opened Multipart
  import ApiClient
  import opened FormPages
  import GalleryApi

  const IMAGE_REQUIRED_MSG: string := "이미지 파일을 선택해주세요."
  const GALLERY_ROUTE: string := "/gallery"

  /** `GalleryRequestDto` as the form holds it: every field a string. */
  datatype GalleryFormValues = GalleryFormValues(
    title: string, description: string, photographer: string, category: string)

  const DEFAULT_VALUES: GalleryFormValues := GalleryFormValues("", "", "", "")

  /** `GalleryResponseDto` as far as the form reads it; `None` is `null`. */
  datatype GalleryResponse = GalleryResponse(
    title: string, description: Option<string>, imageUrl: string,
    photographer: Option<string>, category: Option<string>)

  /** The form values the load effect sets: a null description, photographer or category becomes `''`. */
  function LoadedValues(g: GalleryResponse): (v: GalleryFormValues)
    ensures v.title == g.title && v.description == OrEmpty(g.description)
    ensures v.photographer == OrEmpty(g.photographer) && v.category == OrEmpty(g.category)
  {
    GalleryFormValues(g.title, OrEmpty(g.description), OrEmpty(g.photographer), OrEmpty(g.category))
  }

  /** The form values as the request the gallery API receives. */
  function AsRequest(v: GalleryFormValues): (d: GalleryApi.GalleryRequest)
    ensures d.title == v.title
    ensures d.description == Str(v.description) && d.photographer == Str(v.photographer)
    ensures d.category == Str(v.category)
  {
    GalleryApi.GalleryRequest(v.title, Str(v.description), Str(v.photographer), Str(v.category))
  }

  /** What a submit hands to the gallery API: the request and the image, if any. */
  datatype GalleryCall = GalleryCall(data: GalleryApi.GalleryRequest, image: Option<File>)

  /**
   * A field that loaded as `null` is sent as nothing at all, so an edit cannot clear a
   * stored description on its own.
   */
  lemma NullFieldsStayUnsent(g: GalleryResponse, image: Option<File>)
    requires g.description.None?
    ensures Lookup(Present(GalleryApi.GalleryCandidates(AsRequest(LoadedValues(g)), image)), "description") == None
  {
    GalleryApi.GalleryFields(AsRequest(LoadedValues(g)), image);
  }

  class GalleryFormPage {
    /** The route's `:id` parameter. */
    const id: Option<string>
    /** `API_BASE_URL` */
    const apiBaseUrl: string
    var values: GalleryFormValues
    var imageFile: Option<File>
    var previewUrl: Option<string>
    var error: Option<string>
    var isLoading: bool
    /** The route `navigate` was last called with. */
    var navigatedTo: Option<string>

    constructor (id: Option<string>, apiBaseUrl: string)
      ensures this.id == id && this.apiBaseUrl == apiBaseUrl && values == DEFAULT_VALUES
      ensures imageFile.None? && previewUrl.None? && error.None? && !isLoading && navigatedTo.None?
    {
      this.id := id;
      this.apiBaseUrl := apiBaseUrl;
      values := DEFAULT_VALUES;
      imageFile := None;
      previewUrl := None;
      error := None;
      isLoading := false;
      navigatedTo := None;
    }

    /**
     * The edit-mode load effect once `getGallery(Number(id))` settles: the fields are set and
     * a stored image becomes the preview under the API base URL.
     */
    method OnLoaded(result: Result<GalleryResponse, ApiClient.RequestError>)
      requires IsEdit(id)
      modifies this
      ensures result.Success? ==> values == LoadedValues(result.value) && error == old(error)
      ensures result.Success? && result.value.imageUrl != "" ==>
                previewUrl == Some(apiBaseUrl + result.value.imageUrl)
      ensures !(result.Success? && result.value.imageUrl != "") ==> previewUrl == old(previewUrl)
      ensures result.Failure? ==>
                values == old(values) && error == Some(ApiClient.GetErrorMessage(result.error))
      ensures imageFile == old(imageFile) && isLoading == old(isLoading) && navigatedTo == old(navigatedTo)
    {
      match result
      case Success(g) =>
        values := values.(title := g.title);
        values := values.(description := OrEmpty(g.description));
        values := values.(photographer := OrEmpty(g.photographer));
        values := values.(category := OrEmpty(g.category));
        if g.imageUrl != "" {
          previewUrl := Some(apiBaseUrl + g.imageUrl);
        }
      case Failure(e) =>
        error := Some(ApiClient.GetErrorMessage(e));
    }

    /**
     * The picker's `onChange`: the file is kept. Clearing it in create mode clears the
     * preview; in edit mode the preview is left to a fresh fetch of the stored item.
     */
    method OnFileChange(file: Option<File>)
      modifies this
      ensures imageFile == file
      ensures file.None? && !IsEdit(id) ==> previewUrl.None?
      ensures file.Some? || IsEdit(id) ==> previewUrl == old(previewUrl)
      ensures values == old(values) && error == old(error)
      ensures isLoading == old(isLoading) && navigatedTo == old(navigatedTo)
    {
      imageFile := file;
      if file.None? && !IsEdit(id) {
        previewUrl := None;
      }
    }

    /**
     * `onSubmit(data)`, with `outcome` the result of the call if one is made. Creating
     * without an image is refused with a message and no call; creating sends the image,
     * editing sends it if there is one. Only a successful call navigates to `/gallery`, and
     * loading ends false on every path.
     */
    method OnSubmit(data: GalleryFormValues, outcome: Result<(), ApiClient.RequestError>)
      returns (call: Submission<GalleryCall>)
      modifies this
      ensures !IsEdit(id) && imageFile.None? ==>
                call == NoCall && error == Some(IMAGE_REQUIRED_MSG) && navigatedTo == old(navigatedTo)
      ensures IsEdit(id) ==> call == Update(JsStrings.NumberOf(id.value), GalleryCall(AsRequest(data), imageFile))
      ensures !IsEdit(id) && imageFile.Some? ==> call == Create(GalleryCall(AsRequest(data), imageFile))
      ensures call != NoCall && outcome.Success? ==> navigatedTo == Some(GALLERY_ROUTE) && error.None?
      ensures call != NoCall && outcome.Failure? ==>
                navigatedTo == old(navigatedTo) && error == Some(ApiClient.GetErrorMessage(outcome.error))
      ensures !isLoading && values == old(values) && imageFile == old(imageFile) && previewUrl == old(previewUrl)
    {
      isLoading := true;
      error := None;

      if !IsEdit(id) && imageFile.None? {
        error := Some(IMAGE_REQUIRED_MSG);
        isLoading := false;
        return NoCall;
      }

      if IsEdit(id) {
        call := Update(JsStrings.NumberOf(id.value), GalleryCall(AsRequest(data), imageFile));
      } else {
        if imageFile.None? {
          // The second image check of the create branch cannot fail: the first one returned.
          assert false;
        }
        call := Create(GalleryCall(AsRequest(data), imageFile));
      }
      match outcome {
        case Success(_) =>
          navigatedTo := Some(GALLERY_ROUTE);
        case Failure(e) =>
          error := Some(ApiClient.GetErrorMessage(e));
      }
      isLoading := false;
    }
  }

  /** A create-mode submit whose image was picked and then cleared is refused without a call. */
  method ClearedImageRefused(apiBaseUrl: string, data: GalleryFormValues, file: File,
                             outcome: Result<(), ApiClient.RequestError>)
    returns (page: GalleryFormPage, call: Submission<GalleryCall>)
    ensures call == NoCall && page.error == Some(IMAGE_REQUIRED_MSG)
    ensures !page.isLoading && page.navigatedTo.None? && page.previewUrl.None?
  {
    page := new GalleryFormPage(None, apiBaseUrl);
    page.OnFileChange(Some(file));
    page.OnFileChange(None);
    call := page.OnSubmit(data, outcome);
  }
}
