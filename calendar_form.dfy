/**
 * The calendar event create/edit form (src/modules/calendar/CalendarFormPage.tsx): the rule
 * that an event may not end before it starts, the order of the checks made before submitting,
 * and the page state the load effect and the submit handler update.
 *
 * `new Date(s)` is the parameter `parse`: `None` is an invalid date, whose time is `NaN`, so
 * every comparison with it is false.
 */
module CalendarForm {
  import opened Wrappers
  import opened JsStrings
  import ApiClient
  import opened FormPages

  const DATE_ORDER_MSG: string := "종료일은 시작일 이후여야 합니다."
  const TITLE_MSG: string := "행사명(한글)을 입력해주세요."
  const CALENDAR_ROUTE: string := "/calendar"

  /** `CalendarEventRequestDto`, as the form holds it. */
  datatype CalendarEventRequest = CalendarEventRequest(
    dateStart: string, dateEnd: string, eventKorean: string, eventEnglish: string, description: string)

  /** The form's `defaultValues`: every field empty. */
  const DEFAULT_VALUES: CalendarEventRequest := CalendarEventRequest("", "", "", "", "")

  /** `CalendarEventResponseDto` as far as the form reads it; `None` is `null` or missing. */
  datatype CalendarEventResponse = CalendarEventResponse(
    dateStart: string, dateEnd: string, eventKorean: string,
    eventEnglish: Option<string>, description: Option<string>)

  /**
   * `validateDates(dateEnd, dateStart)`: a missing date is left to the required-field rules;
   * otherwise the end must not be before the start, and an invalid date fails.
   */
  function ValidateDates(dateEnd: string, dateStart: string, parse: string -> Option<int>): (ok: bool)
    ensures dateStart == "" || dateEnd == "" ==> ok
    ensures dateStart != "" && dateEnd != "" ==>
              (ok <==> parse(dateEnd).Some? && parse(dateStart).Some? && parse(dateEnd).value >= parse(dateStart).value)
  {
    if dateStart == "" || dateEnd == "" then true
    else
      match (parse(dateEnd), parse(dateStart))
      case (Some(end), Some(start)) => end >= start
      case _ => false
  }

  /** An event may start and end on the same valid day. */
  lemma SameDayAllowed(day: string, parse: string -> Option<int>)
    requires day != "" && parse(day).Some?
    ensures ValidateDates(day, day, parse)
  {
  }

  /** Of two different valid days, exactly one order passes. */
  lemma ExactlyOneOrder(a: string, b: string, parse: string -> Option<int>)
    requires a != "" && b != "" && parse(a).Some? && parse(b).Some? && parse(a).value != parse(b).value
    ensures ValidateDates(a, b, parse) != ValidateDates(b, a, parse)
  {
  }

  /** The form values the load effect sets: missing English name and description become `''`. */
  function LoadedValues(e: CalendarEventResponse): (v: CalendarEventRequest)
    ensures v.dateStart == e.dateStart && v.dateEnd == e.dateEnd && v.eventKorean == e.eventKorean
    ensures v.eventEnglish == e.eventEnglish.GetOr("") && v.description == e.description.GetOr("")
  {
    CalendarEventRequest(e.dateStart, e.dateEnd, e.eventKorean,
      if e.eventEnglish.Some? then e.eventEnglish.value else "",
      if e.description.Some? then e.description.value else "")
  }

  class CalendarFormPage {
    /** The route's `:id` parameter. */
    const id: Option<string>
    var values: CalendarEventRequest
    var isLoading: bool
    var error: Option<string>
    /** The route `navigate` was last called with. */
    var navigatedTo: Option<string>

    constructor (id: Option<string>)
      ensures this.id == id && values == DEFAULT_VALUES
      ensures !isLoading && error.None? && navigatedTo.None?
    {
      this.id := id;
      values := DEFAULT_VALUES;
      isLoading := false;
      error := None;
      navigatedTo := None;
    }

    /** The edit-mode load effect once `getEvent(Number(id))` settles. */
    method OnLoaded(result: Result<CalendarEventResponse, ApiClient.RequestError>)
      requires IsEdit(id)
      modifies this
      ensures result.Success? ==> values == LoadedValues(result.value) && error == old(error)
      ensures result.Failure? ==>
                values == old(values) && error == Some(ApiClient.GetErrorMessage(result.error))
      ensures isLoading == old(isLoading) && navigatedTo == old(navigatedTo)
    {
      match result
      case Success(e) =>
        values := values.(dateStart := e.dateStart);
        values := values.(dateEnd := e.dateEnd);
        values := values.(eventKorean := e.eventKorean);
        values := values.(eventEnglish := e.eventEnglish.GetOr(""));
        values := values.(description := e.description.GetOr(""));
      case Failure(err) =>
        error := Some(ApiClient.GetErrorMessage(err));
    }

    /**
     * `onSubmit(data)`, with `outcome` the result of the call if one is made. The date order is
     * checked first, then that the Korean name is not blank; a failed check makes no call.
     * A call goes to update with `Number(id)` in edit mode and to create otherwise, and only
     * its success navigates to `/calendar`. Loading ends false on every path.
     */
    method OnSubmit(data: CalendarEventRequest, parse: string -> Option<int>,
                    outcome: Result<(), ApiClient.RequestError>)
      returns (call: Submission<CalendarEventRequest>)
      modifies this
      ensures !ValidateDates(data.dateEnd, data.dateStart, parse) ==>
                call == NoCall && error == Some(DATE_ORDER_MSG) && navigatedTo == old(navigatedTo)
      ensures ValidateDates(data.dateEnd, data.dateStart, parse) && Blank(data.eventKorean) ==>
                call == NoCall && error == Some(TITLE_MSG) && navigatedTo == old(navigatedTo)
      ensures ValidateDates(data.dateEnd, data.dateStart, parse) && !Blank(data.eventKorean) ==>
                && call == Dispatch(id, data)
                && (outcome.Success? ==> navigatedTo == Some(CALENDAR_ROUTE) && error.None?)
                && (outcome.Failure? ==> navigatedTo == old(navigatedTo)
                                         && error == Some(ApiClient.GetErrorMessage(outcome.error)))
      ensures !isLoading && values == old(values)
    {
      isLoading := true;
      error := None;

      if !ValidateDates(data.dateEnd, data.dateStart, parse) {
        error := Some(DATE_ORDER_MSG);
        isLoading := false;
        return NoCall;
      }

      TrimEmptyIffBlank(data.eventKorean);
      if data.eventKorean == "" || |Trim(data.eventKorean)| == 0 {
        error := Some(TITLE_MSG);
        isLoading := false;
        return NoCall;
      }

      if IsEdit(id) {
        call := Update(NumberOf(id.value), data);
      } else {
        call := Create(data);
      }
      match outcome {
        case Success(_) =>
          navigatedTo := Some(CALENDAR_ROUTE);
        case Failure(e) =>
          error := Some(ApiClient.GetErrorMessage(e));
      }
      isLoading := false;
    }
  }

  /** A blank Korean name with valid dates is refused without a call, whatever the other fields hold. */
  method BlankNameRefused(id: Option<string>, data: CalendarEventRequest, parse: string -> Option<int>)
    returns (page: CalendarFormPage)
    requires data.dateStart == "" && data.eventKorean == "  "
    ensures page.error == Some(TITLE_MSG) && !page.isLoading && page.navigatedTo.None?
  {
    page := new CalendarFormPage(id);
    var call := page.OnSubmit(data, parse, Success(()));
    assert Blank(data.eventKorean) by {
      assert forall i :: 0 <= i < |data.eventKorean| ==> data.eventKorean[i] == ' ';
    }
  }
}
