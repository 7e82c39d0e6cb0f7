/**
 * The calendar event list (src/modules/calendar/CalendarListPage.tsx): the fetched events are
 * shown newest first, sorted on a copy, and a confirmed delete that succeeds fetches the list
 * again.
 *
 * `new Date(s).getTime()` is the parameter `timeOf`; the comparator `b - a` orders by it,
 * latest first. The fetched list is a value here, so sorting a copy leaves it as it was.
 */
module CalendarList {
  import opened Wrappers
  import ApiClient

  const CONFIRM_DELETE_MSG: string := "정말 삭제하시겠습니까?"

  /** `CalendarEventResponseDto` */
  datatype CalendarEvent = CalendarEvent(
    id: nat, dateStart: string, dateEnd: string, eventKorean: string,
    eventEnglish: Option<string>, description: Option<string>)

  /** No event starts later than one shown before it. */
  predicate NewestFirst(events: seq<CalendarEvent>, timeOf: string -> int) {
    forall i, j :: 0 <= i < j < |events| ==> timeOf(events[i].dateStart) >= timeOf(events[j].dateStart)
  }

  /** Puts `e` after every event that starts no earlier than it. */
  function InsertByStart(e: CalendarEvent, sorted: seq<CalendarEvent>, timeOf: string -> int): (r: seq<CalendarEvent>)
    ensures multiset(r) == multiset(sorted) + multiset{e}
    ensures |r| == |sorted| + 1
    decreases |sorted|
  {
    if sorted == [] then [e]
    else if timeOf(sorted[0].dateStart) >= timeOf(e.dateStart) then
      assert sorted == [sorted[0]] + sorted[1..];
      [sorted[0]] + InsertByStart(e, sorted[1..], timeOf)
    else
      [e] + sorted
  }

  /** Inserting into a list that is newest first keeps it newest first. */
  lemma {:induction false} InsertKeepsNewestFirst(e: CalendarEvent, sorted: seq<CalendarEvent>, timeOf: string -> int)
    requires NewestFirst(sorted, timeOf)
    ensures NewestFirst(InsertByStart(e, sorted, timeOf), timeOf)
    decreases |sorted|
  {
    if sorted != [] {
      var first := sorted[0];
      if timeOf(first.dateStart) >= timeOf(e.dateStart) {
        var tail := sorted[1..];
        var rest := InsertByStart(e, tail, timeOf);
        InsertKeepsNewestFirst(e, tail, timeOf);
        forall k | 0 <= k < |rest|
          ensures timeOf(first.dateStart) >= timeOf(rest[k].dateStart)
        {
          assert rest[k] in multiset(rest);
          if rest[k] != e {
            assert rest[k] in multiset(tail);
            var j :| 0 <= j < |tail| && tail[j] == rest[k];
            assert sorted[j + 1] == rest[k];
          }
        }
        NewestFirstCons(first, rest, timeOf);
        assert InsertByStart(e, sorted, timeOf) == [first] + rest;
      } else {
        forall k | 0 <= k < |sorted|
          ensures timeOf(e.dateStart) >= timeOf(sorted[k].dateStart)
        {
          assert timeOf(sorted[0].dateStart) >= timeOf(sorted[k].dateStart) || k == 0;
        }
        NewestFirstCons(e, sorted, timeOf);
        assert InsertByStart(e, sorted, timeOf) == [e] + sorted;
      }
    }
  }

  /** An event that starts no earlier than any of a newest-first list can go in front of it. */
  lemma NewestFirstCons(first: CalendarEvent, rest: seq<CalendarEvent>, timeOf: string -> int)
    requires NewestFirst(rest, timeOf)
    requires forall k :: 0 <= k < |rest| ==> timeOf(first.dateStart) >= timeOf(rest[k].dateStart)
    ensures NewestFirst([first] + rest, timeOf)
  {
    var s := [first] + rest;
    forall i, j | 0 <= i < j < |s|
      ensures timeOf(s[i].dateStart) >= timeOf(s[j].dateStart)
    {
      assert s[j] == rest[j - 1];
      if i > 0 {
        assert s[i] == rest[i - 1];
      }
    }
  }

  /**
   * `[...data].sort((a, b) => time(b) - time(a))`: the same events, newest first. Events with
   * the same start keep their order, as the standard library's sort does.
   */
  function SortNewestFirst(events: seq<CalendarEvent>, timeOf: string -> int): (r: seq<CalendarEvent>)
    ensures NewestFirst(r, timeOf)
    ensures multiset(r) == multiset(events) && |r| == |events|
    decreases |events|
  {
    if events == [] then []
    else
      var last := events[|events| - 1];
      var shown := SortNewestFirst(events[..|events| - 1], timeOf);
      assert events == events[..|events| - 1] + [last];
      InsertKeepsNewestFirst(last, shown, timeOf);
      InsertByStart(last, shown, timeOf)
  }

  /** An event starting no later than every event of a sorted list goes at its end. */
  lemma {:induction false} InsertOldest(e: CalendarEvent, sorted: seq<CalendarEvent>, timeOf: string -> int)
    requires forall k :: 0 <= k < |sorted| ==> timeOf(sorted[k].dateStart) >= timeOf(e.dateStart)
    ensures InsertByStart(e, sorted, timeOf) == sorted + [e]
    decreases |sorted|
  {
    if sorted != [] {
      InsertOldest(e, sorted[1..], timeOf);
    }
  }

  /** A list that is already newest first is shown exactly as fetched. */
  lemma {:induction false} SortKeepsSorted(events: seq<CalendarEvent>, timeOf: string -> int)
    requires NewestFirst(events, timeOf)
    ensures SortNewestFirst(events, timeOf) == events
    decreases |events|
  {
    if events != [] {
      var init := events[..|events| - 1];
      var last := events[|events| - 1];
      assert NewestFirst(init, timeOf);
      SortKeepsSorted(init, timeOf);
      InsertOldest(last, init, timeOf);
      assert init + [last] == events;
    }
  }

  /** The first event shown starts no earlier than any fetched event. */
  lemma FirstIsNewest(events: seq<CalendarEvent>, timeOf: string -> int, e: CalendarEvent)
    requires e in events
    ensures var shown := SortNewestFirst(events, timeOf);
      |shown| > 0 && timeOf(shown[0].dateStart) >= timeOf(e.dateStart)
  {
    var shown := SortNewestFirst(events, timeOf);
    assert e in multiset(events);
    assert e in shown;
    var k :| 0 <= k < |shown| && shown[k] == e;
  }

  class CalendarListPage {
    /** `new Date(s).getTime()` for the start dates. */
    const timeOf: string -> int
    var events: seq<CalendarEvent>
    var error: Option<string>
    var isLoading: bool
    /** The messages shown with `alert`, oldest first. */
    var alerts: seq<string>

    /** The shown list is always newest first. */
    ghost predicate Valid()
      reads this
    {
      NewestFirst(events, timeOf)
    }

    constructor (timeOf: string -> int)
      ensures Valid() && this.timeOf == timeOf
      ensures events == [] && error.None? && !isLoading && alerts == []
    {
      this.timeOf := timeOf;
      events := [];
      error := None;
      isLoading := false;
      alerts := [];
    }

    /**
     * `fetchEvents()` once `getAllEvents()` settles: the sorted copy is shown, or the error
     * message is set and the shown list is kept; loading ends either way.
     */
    method FetchEvents(result: Result<seq<CalendarEvent>, ApiClient.RequestError>)
      requires Valid()
      modifies this
      ensures Valid() && !isLoading && alerts == old(alerts)
      ensures result.Success? ==>
                events == SortNewestFirst(result.value, timeOf) && error.None?
      ensures result.Failure? ==>
                events == old(events) && error == Some(ApiClient.GetErrorMessage(result.error))
    {
      isLoading := true;
      error := None;
      match result {
        case Success(data) =>
          var sortedData := SortNewestFirst(data, timeOf);
          events := sortedData;
        case Failure(e) =>
          error := Some(ApiClient.GetErrorMessage(e));
      }
      isLoading := false;
    }

    /**
     * `handleDelete(id)`: nothing happens unless the user confirms; then `deleteEvent(id)` is
     * called (`deletedId`). Its success fetches the list again (`refetched` is what that fetch
     * settles with); its failure shows an alert and leaves the list, the error and loading alone.
     */
    method HandleDelete(id: nat, confirmed: bool, deleted: Result<(), ApiClient.RequestError>,
                        refetched: Result<seq<CalendarEvent>, ApiClient.RequestError>)
      returns (deletedId: Option<nat>)
      requires Valid()
      modifies this
      ensures Valid()
      ensures deletedId == (if confirmed then Some(id) else None)
      ensures !confirmed || deleted.Failure? ==>
                events == old(events) && error == old(error) && isLoading == old(isLoading)
      ensures confirmed && deleted.Failure? ==>
                alerts == old(alerts) + [ApiClient.GetErrorMessage(deleted.error)]
      ensures !(confirmed && deleted.Failure?) ==> alerts == old(alerts)
      ensures confirmed && deleted.Success? && refetched.Success? ==>
                events == SortNewestFirst(refetched.value, timeOf) && error.None? && !isLoading
      ensures confirmed && deleted.Success? && refetched.Failure? ==>
                events == old(events) && error == Some(ApiClient.GetErrorMessage(refetched.error)) && !isLoading
    {
      if !confirmed {
        return None;
      }
      deletedId := Some(id);
      match deleted {
        case Success(_) =>
          FetchEvents(refetched);
        case Failure(e) =>
          alerts := alerts + [ApiClient.GetErrorMessage(e)];
      }
    }
  }
}
