/**
 * The activity/contest create/edit form (src/modules/activities/ActivityFormPage.tsx): how a
 * stored post fills the form, how the thumbnail picker changes the page, and the payload a
 * submit hands to the multipart builders of the activities API, which keeps the stored
 * thumbnail when an edit picks no new file.
 */
module ActivityForm {
  import opened Wrappers
  import opened Multipart
  import ApiClient
  import opened FormPages
  import ActivitiesApi

  const ACTIVITIES_ROUTE: string := "/activities"

  /** An entry of `CATEGORY_OPTIONS`: the stored value and the label shown. */
  datatype CategoryOption = CategoryOption(value: string, labelText: string)

  const CATEGORY_OPTIONS: seq<CategoryOption> :=
    [CategoryOption("EXTERNAL_ACTIVITY", "대외활동"), CategoryOption("CONTEST", "공모전")]

  /** `CATEGORY_OPTIONS.map((c) => ({ value: c.value, label: c.label }))` */
  function CategoryOptions(): (options: seq<CategoryOption>)
    ensures |options| == |CATEGORY_OPTIONS|
    ensures forall i :: 0 <= i < |options| ==>
              options[i].value == CATEGORY_OPTIONS[i].value && options[i].labelText == CATEGORY_OPTIONS[i].labelText
  {
    seq(|CATEGORY_OPTIONS|, i requires 0 <= i < |CATEGORY_OPTIONS| =>
      CategoryOption(CATEGORY_OPTIONS[i].value, CATEGORY_OPTIONS[i].labelText))
  }

  /** The fields the form registers; the default category is the first option. */
  datatype ActivityFormValues = ActivityFormValues(
    category: string, title: string, content: string, author: string,
    organization: string, startDate: string, endDate: string, applyUrl: string)

  const DEFAULT_VALUES: ActivityFormValues :=
    ActivityFormValues("EXTERNAL_ACTIVITY", "", "", "", "", "", "", "")

  /** The options offer two distinct categories, the default among them. */
  lemma OptionsOfferDefault()
    ensures var options := CategoryOptions();
      |options| == 2 && options[0].value != options[1].value
      && options[0].value == DEFAULT_VALUES.category
  {
  }

  /** `ActivityPostResponseDto` as far as the form reads it; `None` is `null` or missing. */
  datatype ActivityResponse = ActivityResponse(
    category: string, title: string, content: string, author: string,
    organization: Option<string>, startDate: Option<string>, endDate: Option<string>,
    applyUrl: Option<string>, thumbnailUrl: Option<string>)

  /** The form values the load effect sets: missing optional fields become `''`. */
  function LoadedValues(a: ActivityResponse): (v: ActivityFormValues)
    ensures v.category == a.category && v.title == a.title && v.content == a.content && v.author == a.author
    ensures v.organization == OrEmpty(a.organization) && v.startDate == OrEmpty(a.startDate)
    ensures v.endDate == OrEmpty(a.endDate) && v.applyUrl == OrEmpty(a.applyUrl)
  {
    ActivityFormValues(a.category, a.title, a.content, a.author,
      OrEmpty(a.organization), OrEmpty(a.startDate), OrEmpty(a.endDate), OrEmpty(a.applyUrl))
  }

  /**
   * `{ ...data }`: the registered fields as strings; the optional fields the form does not
   * register are `undefined`.
   */
  function FormCopy(v: ActivityFormValues): (d: ActivitiesApi.ActivityPostRequest)
    ensures d.category == v.category && d.title == v.title && d.content == v.content && d.author == v.author
    ensures d.organization == Str(v.organization) && d.startDate == Str(v.startDate)
    ensures d.endDate == Str(v.endDate) && d.applyUrl == Str(v.applyUrl)
    ensures d.thumbnailUrl == Undefined && d.recruitmentRoles == Undefined
    ensures d.contactUrl == Undefined && d.status == Undefined
  {
    ActivitiesApi.ActivityPostRequest(v.category, v.title, v.content, v.author,
      Undefined, Str(v.organization), Str(v.startDate), Str(v.endDate), Str(v.applyUrl),
      Undefined, Undefined, Undefined)
  }

  /** `isEdit && !thumbnailFile && existingThumbnailUrl` */
  predicate KeepsThumbnail(isEdit: bool, file: Option<File>, existing: Option<string>) {
    isEdit && file.None? && existing.Some? && existing.value != ""
  }

  /** The payload of `onSubmit`: the copy, with the stored thumbnail URL when it is kept. */
  function SubmittedPayload(v: ActivityFormValues, isEdit: bool, file: Option<File>,
                            existing: Option<string>): (d: ActivitiesApi.ActivityPostRequest)
    ensures d.(thumbnailUrl := Undefined) == FormCopy(v)
    ensures KeepsThumbnail(isEdit, file, existing) ==> d.thumbnailUrl == Str(existing.value)
    ensures !KeepsThumbnail(isEdit, file, existing) ==> d == FormCopy(v)
  {
    if KeepsThumbnail(isEdit, file, existing) then FormCopy(v).(thumbnailUrl := Str(existing.value))
    else FormCopy(v)
  }

  /** What a submit hands to the activities API: the payload and `thumbnailFile ?? undefined`. */
  datatype ActivityCall = ActivityCall(payload: ActivitiesApi.ActivityPostRequest, thumbnail: Option<File>)

  /**
   * An edit without a new file sends the stored thumbnail URL in the update body and no
   * thumbnail file.
   */
  lemma KeptThumbnailIsSent(v: ActivityFormValues, existing: string)
    requires existing != ""
    ensures var body := Present(ActivitiesApi.UpdateCandidates(SubmittedPayload(v, true, None, Some(existing)), None));
      Lookup(body, "thumbnailUrl") == Some(Text(existing)) && Lookup(body, ActivitiesApi.THUMBNAIL_KEY) == None
  {
    var d := SubmittedPayload(v, true, None, Some(existing));
    ActivitiesApi.UpdateOptionalField(d, None, 0);
    ActivitiesApi.ThumbnailLast(d, None);
  }

  /**
   * A new file replaces the stored thumbnail: the update body carries no `thumbnailUrl` and
   * ends with the file.
   */
  lemma NewFileReplacesThumbnail(v: ActivityFormValues, file: File, existing: Option<string>)
    ensures var body := Present(ActivitiesApi.UpdateCandidates(SubmittedPayload(v, true, Some(file), existing), Some(file)));
      Lookup(body, "thumbnailUrl") == None
      && |body| > 0 && body[|body| - 1] == Entry(ActivitiesApi.THUMBNAIL_KEY, Blob(file))
  {
    var d := SubmittedPayload(v, true, Some(file), existing);
    ActivitiesApi.UpdateOptionalField(d, Some(file), 0);
    ActivitiesApi.ThumbnailLast(d, Some(file));
  }

  /** Creating never injects a thumbnail URL. */
  lemma CreateSendsNoThumbnailUrl(v: ActivityFormValues, file: Option<File>, existing: Option<string>)
    ensures Lookup(Present(ActivitiesApi.CreateCandidates(SubmittedPayload(v, false, file, existing), file)),
                   "thumbnailUrl") == None
  {
    ActivitiesApi.CreateOptionalField(SubmittedPayload(v, false, file, existing), file, 0);
  }

  class ActivityFormPage {
    /** The route's `:id` parameter. */
    const id: Option<string>
    /** `API_BASE_URL` */
    const apiBaseUrl: string
    var values: ActivityFormValues
    var thumbnailFile: Option<File>
    var previewUrl: Option<string>
    var existingThumbnailUrl: Option<string>
    var error: Option<string>
    var loading: bool
    /** The route `navigate` was last called with. */
    var navigatedTo: Option<string>

    constructor (id: Option<string>, apiBaseUrl: string)
      ensures this.id == id && this.apiBaseUrl == apiBaseUrl && values == DEFAULT_VALUES
      ensures thumbnailFile.None? && previewUrl.None? && existingThumbnailUrl.None?
      ensures error.None? && !loading && navigatedTo.None?
    {
      this.id := id;
      this.apiBaseUrl := apiBaseUrl;
      values := DEFAULT_VALUES;
      thumbnailFile := None;
      previewUrl := None;
      existingThumbnailUrl := None;
      error := None;
      loading := false;
      navigatedTo := None;
    }

    /**
     * The edit-mode load effect once `getById(Number(id))` settles: the fields are set, and a
     * stored thumbnail becomes the existing URL and, under the API base URL, the preview.
     */
    method OnLoaded(result: Result<ActivityResponse, ApiClient.RequestError>)
      requires IsEdit(id)
      modifies this
      ensures result.Success? ==> values == LoadedValues(result.value) && error == old(error)
      ensures result.Success? && result.value.thumbnailUrl.Some? && result.value.thumbnailUrl.value != "" ==>
                existingThumbnailUrl == result.value.thumbnailUrl
                && previewUrl == Some(apiBaseUrl + result.value.thumbnailUrl.value)
      ensures !(result.Success? && result.value.thumbnailUrl.Some? && result.value.thumbnailUrl.value != "") ==>
                existingThumbnailUrl == old(existingThumbnailUrl) && previewUrl == old(previewUrl)
      ensures result.Failure? ==>
                values == old(values) && error == Some(ApiClient.GetErrorMessage(result.error))
      ensures thumbnailFile == old(thumbnailFile) && loading == old(loading) && navigatedTo == old(navigatedTo)
    {
      match result
      case Success(a) =>
        values := values.(category := a.category);
        values := values.(title := a.title);
        values := values.(content := a.content);
        values := values.(author := a.author);
        values := values.(organization := OrEmpty(a.organization));
        values := values.(startDate := OrEmpty(a.startDate));
        values := values.(endDate := OrEmpty(a.endDate));
        values := values.(applyUrl := OrEmpty(a.applyUrl));
        if a.thumbnailUrl.Some? && a.thumbnailUrl.value != "" {
          existingThumbnailUrl := a.thumbnailUrl;
          previewUrl := Some(apiBaseUrl + a.thumbnailUrl.value);
        }
      case Failure(e) =>
        error := Some(ApiClient.GetErrorMessage(e));
    }

    /** The picker's `onChange`: the file is kept; clearing it clears the preview only. */
    method OnFileChange(file: Option<File>)
      modifies this
      ensures thumbnailFile == file
      ensures file.None? ==> previewUrl.None?
      ensures file.Some? ==> previewUrl == old(previewUrl)
      ensures existingThumbnailUrl == old(existingThumbnailUrl) && values == old(values)
      ensures error == old(error) && loading == old(loading) && navigatedTo == old(navigatedTo)
    {
      thumbnailFile := file;
      if file.None? {
        previewUrl := None;
      }
    }

    /**
     * `onSubmit(data)` once the create or update call has settled with `outcome`. Only
     * success navigates to `/activities`; loading ends false either way.
     */
    method OnSubmit(data: ActivityFormValues, outcome: Result<(), ApiClient.RequestError>)
      returns (call: Submission<ActivityCall>)
      modifies this
      ensures call == Dispatch(id, ActivityCall(
                SubmittedPayload(data, IsEdit(id), old(thumbnailFile), old(existingThumbnailUrl)), old(thumbnailFile)))
      ensures outcome.Success? ==> navigatedTo == Some(ACTIVITIES_ROUTE) && error.None?
      ensures outcome.Failure? ==>
                navigatedTo == old(navigatedTo) && error == Some(ApiClient.GetErrorMessage(outcome.error))
      ensures !loading && values == old(values) && thumbnailFile == old(thumbnailFile)
      ensures previewUrl == old(previewUrl) && existingThumbnailUrl == old(existingThumbnailUrl)
    {
      loading := true;
      error := None;
      var payload := FormCopy(data);
      if IsEdit(id) && thumbnailFile.None? && existingThumbnailUrl.Some? && existingThumbnailUrl.value != "" {
        payload := payload.(thumbnailUrl := Str(existingThumbnailUrl.value));
      }
      if IsEdit(id) {
        call := Update(JsStrings.NumberOf(id.value), ActivityCall(payload, thumbnailFile));
      } else {
        call := Create(ActivityCall(payload, thumbnailFile));
      }
      match outcome {
        case Success(_) =>
          navigatedTo := Some(ACTIVITIES_ROUTE);
        case Failure(e) =>
          error := Some(ApiClient.GetErrorMessage(e));
      }
      loading := false;
    }
  }

  /**
   * Editing a post with a stored thumbnail, picking a file and then clearing the picker
   * still submits the stored thumbnail URL, while the preview is gone.
   */
  method ClearedPickerKeepsThumbnail(id: string, apiBaseUrl: string, stored: ActivityResponse, file: File)
    returns (page: ActivityFormPage, call: Submission<ActivityCall>)
    requires id != "" && stored.thumbnailUrl.Some? && stored.thumbnailUrl.value != ""
    ensures page.previewUrl.None?
    ensures call.Update? && call.payload.payload.thumbnailUrl == Str(stored.thumbnailUrl.value)
    ensures call.payload.thumbnail.None?
  {
    page := new ActivityFormPage(Some(id), apiBaseUrl);
    page.OnLoaded(Success(stored));
    page.OnFileChange(Some(file));
    page.OnFileChange(None);
    call := page.OnSubmit(page.values, Success(()));
  }
}
