/**
 * The matching create/edit form (src/modules/matching/MatchingFormPage.tsx): the converters
 * between the stored matching post and the form's text fields, the request payload built on
 * submit, and the page state the load effect and the submit handler update.
 */
module MatchingForm {
  import opened Wrappers
  import opened JsStrings
  import Multipart
  import ApiClient
  import opened FormPages

  const MATCHING_ROUTE: string := "/matching"
  const DEFAULT_TYPE: string := "study"

  // ---------------------------------------------------------------- converters

  /** `toDotDate`: every `-` becomes `.`; the empty string stays empty. */
  function ToDotDate(value: string): (r: string)
    ensures |r| == |value| && '-' !in r
    ensures forall i :: 0 <= i < |value| ==> r[i] == (if value[i] == '-' then '.' else value[i])
  {
    if value != "" then ReplaceAll(value, '-', '.') else ""
  }

  /** `toHyphenDate`: every `.` becomes `-`; the empty string stays empty. */
  function ToHyphenDate(value: string): (r: string)
    ensures |r| == |value| && '.' !in r
    ensures forall i :: 0 <= i < |value| ==> r[i] == (if value[i] == '.' then '-' else value[i])
  {
    if value != "" then ReplaceAll(value, '.', '-') else ""
  }

  /** A form date without dots survives the trip to the dotted form and back. */
  lemma HyphenDotRoundTrip(s: string)
    requires '.' !in s
    ensures ToHyphenDate(ToDotDate(s)) == s
  {
    if s != "" {
      ReplaceAllRoundTrip(s, '-', '.');
    }
  }

  /** A stored date without hyphens survives edit-load and submit unchanged. */
  lemma DotHyphenRoundTrip(s: string)
    requires '-' !in s
    ensures ToDotDate(ToHyphenDate(s)) == s
  {
    if s != "" {
      ReplaceAllRoundTrip(s, '.', '-');
    }
  }

  /** `toNumberOrUndefined`: the empty string is `undefined`, anything else goes through `Number`. */
  function ToNumberOrUndefined(value: string): (r: Option<JsNumber>)
    ensures r.None? <==> value == ""
    ensures value != "" && AllDigits(value) ==> r == Some(Integer(DigitsValue(value)))
    ensures r.Some? && r.value.Unparsed? ==> r.value.text == value && !AllDigits(value)
  {
    if value != "" then Some(NumberOf(value)) else None
  }

  /** A number written out by the load effect (`String(n)`) is read back as the same number. */
  lemma NumberRoundTrip(n: nat)
    ensures ToNumberOrUndefined(DecimalString(n)) == Some(Integer(n))
  {
    NumberOfDecimalString(n);
  }

  /** `items.map((item) => item.trim())` */
  function TrimAll(items: seq<string>): (r: seq<string>)
    ensures |r| == |items|
    ensures forall i :: 0 <= i < |items| ==> r[i] == Trim(items[i])
  {
    seq(|items|, i requires 0 <= i < |items| => Trim(items[i]))
  }

  /** `items.filter(Boolean)`: the non-empty items, in their order. */
  function NonEmpty(items: seq<string>): (r: seq<string>)
    ensures forall x :: x in r <==> x in items && x != ""
    ensures forall i :: 0 <= i < |r| ==> r[i] != "" && r[i] in items
    decreases |items|
  {
    if items == [] then []
    else if items[0] != "" then [items[0]] + NonEmpty(items[1..])
    else NonEmpty(items[1..])
  }

  /** `toArray`: split at commas, trim each item, drop the empty ones. */
  function ToArray(value: string): (r: seq<string>)
    ensures forall i :: 0 <= i < |r| ==> r[i] != "" && IsTrimmed(r[i])
  {
    var items := TrimAll(Split(value, ','));
    forall i | 0 <= i < |items| ensures IsTrimmed(items[i]) {
      TrimIsTrimmed(Split(value, ',')[i]);
    }
    assert forall x :: x in items ==> IsTrimmed(x);
    NonEmpty(items)
  }

  /** Filtering keeps the order of what it keeps. */
  lemma {:induction false} NonEmptyInOrder(items: seq<string>)
    ensures Multipart.IsSubsequence(NonEmpty(items), items)
    decreases |items|
  {
    if items != [] {
      NonEmptyInOrder(items[1..]);
      if items[0] == "" {
        Multipart.SubsequenceCons(NonEmpty(items[1..]), items[0], items[1..]);
      }
      assert [items[0]] + items[1..] == items;
    }
  }

  /** Filtering drops only empty items: every non-empty item is kept as often as it occurs. */
  lemma {:induction false} NonEmptyCounts(items: seq<string>)
    ensures multiset(NonEmpty(items)) == multiset(items)["" := 0]
    decreases |items|
  {
    if items != [] {
      var tail := items[1..];
      NonEmptyCounts(tail);
      assert items == [items[0]] + tail;
      assert multiset(items) == multiset{items[0]} + multiset(tail);
      if items[0] != "" {
        assert NonEmpty(items) == [items[0]] + NonEmpty(tail);
        assert multiset(NonEmpty(items)) == multiset{items[0]} + multiset(NonEmpty(tail));
      } else {
        assert NonEmpty(items) == NonEmpty(tail);
      }
    }
  }

  /** Filtering a list with no empty item leaves it as it is. */
  lemma {:induction false} NonEmptyOfFilled(items: seq<string>)
    requires forall i :: 0 <= i < |items| ==> items[i] != ""
    ensures NonEmpty(items) == items
    decreases |items|
  {
    if items != [] {
      NonEmptyOfFilled(items[1..]);
    }
  }

  /** The items of `toArray(value)` are the trimmed comma-separated pieces, in order, empties dropped. */
  lemma ToArrayInOrder(value: string)
    ensures Multipart.IsSubsequence(ToArray(value), TrimAll(Split(value, ',')))
    ensures forall x :: x in TrimAll(Split(value, ',')) && x != "" ==> x in ToArray(value)
    ensures multiset(ToArray(value)) == multiset(TrimAll(Split(value, ',')))["" := 0]
  {
    NonEmptyInOrder(TrimAll(Split(value, ',')));
    NonEmptyCounts(TrimAll(Split(value, ',')));
  }

  /** `items` with a space in front of each. */
  function Spaced(items: seq<string>): (r: seq<string>)
    ensures |r| == |items|
    ensures forall i :: 0 <= i < |items| ==> r[i] == " " + items[i]
  {
    seq(|items|, i requires 0 <= i < |items| => " " + items[i])
  }

  /** Splitting `tags.join(', ')` at commas leaves a space in front of every tag but the first. */
  lemma {:induction false} SplitJoinedTags(tags: seq<string>)
    requires |tags| >= 1
    requires forall i :: 0 <= i < |tags| ==> ',' !in tags[i]
    ensures Split(Join(tags, ", "), ',') == [tags[0]] + Spaced(tags[1..])
    decreases |tags|
  {
    if |tags| == 1 {
      SplitWithoutSeparator(tags[0], ',');
    } else {
      var rest := Join(tags[1..], ", ");
      SplitJoinedTags(tags[1..]);
      var parts := Split(rest, ',');
      assert parts == [tags[1]] + Spaced(tags[2..]) by {
        assert tags[1..][0] == tags[1] && tags[1..][1..] == tags[2..];
      }
      assert Join(tags, ", ") == tags[0] + [','] + (" " + rest);
      SplitAtSeparator(tags[0], ',', " " + rest);
      SplitNonSeparator(' ', rest, ',');
      SpacedCons(tags[1..]);
    }
  }

  /** `Spaced` of a non-empty list: the first item spaced, then the rest. */
  lemma SpacedCons(items: seq<string>)
    requires items != []
    ensures Spaced(items) == [" " + items[0]] + Spaced(items[1..])
  {
  }

  /** Tags are well formed when each is non-empty, trimmed and free of commas. */
  predicate WellFormedTags(tags: seq<string>) {
    forall i :: 0 <= i < |tags| ==> tags[i] != "" && IsTrimmed(tags[i]) && ',' !in tags[i]
  }

  /** `toArray(tags.join(', '))` gives back well-formed tags: the edit-load/submit round trip. */
  lemma ToArrayJoin(tags: seq<string>)
    requires WellFormedTags(tags)
    ensures ToArray(Join(tags, ", ")) == tags
  {
    if tags == [] {
      assert Split("", ',') == [""];
      assert TrimAll([""]) == [""];
    } else {
      SplitJoinedTags(tags);
      var items := TrimAll([tags[0]] + Spaced(tags[1..]));
      forall i | 0 <= i < |tags| ensures items[i] == tags[i] {
        if i == 0 {
          TrimOfTrimmed(tags[0]);
        } else {
          TrimLeadingSpace(tags[i]);
        }
      }
      assert items == tags;
      NonEmptyOfFilled(tags);
    }
  }

  /** What `parseMembers` returns. */
  datatype Members = Members(current: string, max: string)

  /** `max?.trim() === '-' ? '' : max?.trim() || ''`: a dash means no maximum. */
  function MaxOf(segment: string): (r: string)
    ensures r == "" <==> Trim(segment) == "" || Trim(segment) == "-"
    ensures r != "" ==> r == Trim(segment)
  {
    if Trim(segment) == "-" then "" else Trim(segment)
  }

  /** `parseMembers(members)`: the `"current/max"` text of a stored post. */
  function ParseMembers(members: Option<string>): (r: Members)
    ensures members.None? || members == Some("") ==> r == Members("", "")
    ensures IsTrimmed(r.current) && IsTrimmed(r.max)
  {
    if members.None? || members.value == "" then
      Members("", "")
    else
      var parts := Split(members.value, '/');
      TrimIsTrimmed(parts[0]);
      if |parts| >= 2 then TrimIsTrimmed(parts[1]); Members(Trim(parts[0]), MaxOf(parts[1]))
      else Members(Trim(parts[0]), "")
  }

  /** `"a/b"` gives the trimmed `a` and the trimmed `b`, or no maximum for `-`. */
  lemma ParseMembersPair(current: string, max: string)
    requires '/' !in current && '/' !in max
    ensures ParseMembers(Some(current + "/" + max)) == Members(Trim(current), MaxOf(max))
  {
    SplitAtSeparator(current, '/', max);
    SplitWithoutSeparator(max, '/');
    assert current + "/" + max == current + ['/'] + max;
  }

  /** Text after a second `/` is ignored. */
  lemma ParseMembersIgnoresRest(current: string, max: string, rest: string)
    requires '/' !in current && '/' !in max
    ensures ParseMembers(Some(current + "/" + max + "/" + rest)) == ParseMembers(Some(current + "/" + max))
  {
    SplitAtSeparator(current, '/', max + "/" + rest);
    SplitAtSeparator(max, '/', rest);
    assert current + "/" + max + "/" + rest == current + ['/'] + (max + ['/'] + rest);
    ParseMembersPair(current, max);
  }

  /** Without a `/` the whole text is the current count and there is no maximum. */
  lemma ParseMembersSingle(current: string)
    requires current != "" && '/' !in current
    ensures ParseMembers(Some(current)) == Members(Trim(current), "")
  {
    SplitWithoutSeparator(current, '/');
  }

  /** Decimal counts `"c/m"` come back as the numbers `c` and `m` on submit. */
  lemma MembersRoundTrip(c: nat, m: nat)
    ensures var p := ParseMembers(Some(DecimalString(c) + "/" + DecimalString(m)));
      ToNumberOrUndefined(p.current) == Some(Integer(c)) && ToNumberOrUndefined(p.max) == Some(Integer(m))
  {
    DigitsHaveNoSlashOrSpace(c);
    DigitsHaveNoSlashOrSpace(m);
    ParseMembersPair(DecimalString(c), DecimalString(m));
    TrimOfTrimmed(DecimalString(c));
    TrimOfTrimmed(DecimalString(m));
    assert DecimalString(m) != "-" by { assert IsDigit(DecimalString(m)[0]); }
    NumberRoundTrip(c);
    NumberRoundTrip(m);
  }

  /** `"c/-"` comes back as the number `c` and no maximum. */
  lemma MembersWithoutMaximum(c: nat)
    ensures var p := ParseMembers(Some(DecimalString(c) + "/-"));
      ToNumberOrUndefined(p.current) == Some(Integer(c)) && ToNumberOrUndefined(p.max) == None
  {
    DigitsHaveNoSlashOrSpace(c);
    assert DecimalString(c) + "/-" == DecimalString(c) + "/" + "-";
    ParseMembersPair(DecimalString(c), "-");
    TrimOfTrimmed(DecimalString(c));
    TrimOfTrimmed("-");
    NumberRoundTrip(c);
  }

  lemma DigitsHaveNoSlashOrSpace(n: nat)
    ensures '/' !in DecimalString(n) && IsTrimmed(DecimalString(n)) && DecimalString(n) != ""
    ensures AllDigits(DecimalString(n))
  {
    DecimalStringRoundTrip(n);
    var s := DecimalString(n);
    assert forall i :: 0 <= i < |s| ==> IsDigit(s[i]);
  }

  // ---------------------------------------------------------------- form values and payload

  /** `MatchingFormValues`: every field is a text field. */
  datatype FormValues = FormValues(
    title: string, kind: string, category: string, description: string,
    maxMembers: string, currentMembers: string, deadline: string, thumbnail: string,
    organizerId: string, organizerName: string, companyType: string, targetAudience: string,
    applicationStart: string, applicationEnd: string, activityPeriod: string,
    recruitCount: string, activityArea: string, homepage: string, tagsActivity: string)

  /** The form's `defaultValues`: all empty except the type `study`. */
  const DEFAULT_VALUES: FormValues :=
    FormValues("", DEFAULT_TYPE, "", "", "", "", "", "", "", "", "", "", "", "", "", "", "", "", "")

  /** `MatchingRequestDto` as the page fills it; `None` is a field left `undefined`. */
  datatype MatchingRequest = MatchingRequest(
    title: string, kind: string, category: Option<string>, description: Option<string>,
    maxMembers: Option<JsNumber>, currentMembers: Option<JsNumber>, deadline: Option<string>,
    thumbnail: Option<string>, organizerId: Option<JsNumber>, organizerName: Option<string>,
    companyType: Option<string>, targetAudience: Option<string>, applicationStart: Option<string>,
    applicationEnd: Option<string>, activityPeriod: Option<string>, recruitCount: Option<string>,
    activityArea: Option<string>, homepage: Option<string>, tagsActivity: Option<seq<string>>)

  /** `value || undefined` */
  function OrUndefined(value: string): (r: Option<string>)
    ensures r.None? <==> value == ""
    ensures r.Some? ==> r.value == value
  {
    if value != "" then Some(value) else None
  }

  /** The plain optional text fields of a payload, in declaration order. */
  function SentTextFields(p: MatchingRequest): seq<Option<string>> {
    [p.category, p.description, p.deadline, p.thumbnail, p.organizerName, p.companyType,
     p.targetAudience, p.activityPeriod, p.recruitCount, p.activityArea, p.homepage]
  }

  /**
   * The payload of `onSubmit`: title and type verbatim; every other field `undefined` when
   * its text is empty; counts and organizer id through `Number`; application dates in
   * dotted form; tags through `toArray`.
   */
  function Payload(v: FormValues): (p: MatchingRequest)
    ensures p.title == v.title && p.kind == v.kind
    ensures p.maxMembers.None? <==> v.maxMembers == ""
    ensures p.currentMembers.None? <==> v.currentMembers == ""
    ensures p.organizerId.None? <==> v.organizerId == ""
    ensures SentTextFields(p) == [OrUndefined(v.category), OrUndefined(v.description), OrUndefined(v.deadline),
                                  OrUndefined(v.thumbnail), OrUndefined(v.organizerName), OrUndefined(v.companyType),
                                  OrUndefined(v.targetAudience), OrUndefined(v.activityPeriod), OrUndefined(v.recruitCount),
                                  OrUndefined(v.activityArea), OrUndefined(v.homepage)]
    ensures p.applicationStart.None? <==> v.applicationStart == ""
    ensures p.applicationEnd.None? <==> v.applicationEnd == ""
    ensures p.applicationStart.Some? ==> '-' !in p.applicationStart.value
    ensures p.applicationEnd.Some? ==> '-' !in p.applicationEnd.value
    ensures p.tagsActivity.None? <==> v.tagsActivity == ""
    ensures p.tagsActivity.Some? ==> forall i :: 0 <= i < |p.tagsActivity.value| ==>
              p.tagsActivity.value[i] != "" && IsTrimmed(p.tagsActivity.value[i])
  {
    MatchingRequest(
      v.title, v.kind, OrUndefined(v.category), OrUndefined(v.description),
      ToNumberOrUndefined(v.maxMembers), ToNumberOrUndefined(v.currentMembers),
      OrUndefined(v.deadline), OrUndefined(v.thumbnail), ToNumberOrUndefined(v.organizerId),
      OrUndefined(v.organizerName), OrUndefined(v.companyType), OrUndefined(v.targetAudience),
      OrUndefined(ToDotDate(v.applicationStart)), OrUndefined(ToDotDate(v.applicationEnd)),
      OrUndefined(v.activityPeriod), OrUndefined(v.recruitCount), OrUndefined(v.activityArea),
      OrUndefined(v.homepage), if v.tagsActivity != "" then Some(ToArray(v.tagsActivity)) else None)
  }

  /**
   * The values behind the non-text fields: a filled count or organizer id is sent as
   * `Number` of its text, a filled application date in its dotted form, filled tags as
   * `toArray` of their text.
   */
  lemma PayloadValues(v: FormValues)
    ensures var p := Payload(v);
      && (v.maxMembers != "" ==> p.maxMembers == Some(NumberOf(v.maxMembers)))
      && (v.currentMembers != "" ==> p.currentMembers == Some(NumberOf(v.currentMembers)))
      && (v.organizerId != "" ==> p.organizerId == Some(NumberOf(v.organizerId)))
      && (v.applicationStart != "" ==> p.applicationStart == Some(ToDotDate(v.applicationStart)))
      && (v.applicationEnd != "" ==> p.applicationEnd == Some(ToDotDate(v.applicationEnd)))
      && (v.tagsActivity != "" ==> p.tagsActivity == Some(ToArray(v.tagsActivity)))
  {
  }

  /** Submitting the untouched defaults sends the title, the type `study` and nothing else. */
  lemma DefaultsSendNothingElse()
    ensures Payload(DEFAULT_VALUES) ==
      MatchingRequest("", DEFAULT_TYPE, None, None, None, None, None, None, None, None, None, None,
                      None, None, None, None, None, None, None)
  {
  }

  // ---------------------------------------------------------------- edit load

  /** `MatchingResponseDto` as far as the form reads it; `None` is `null` or a missing field. */
  datatype MatchingResponse = MatchingResponse(
    title: string, kind: string, category: Option<string>, description: Option<string>,
    members: Option<string>, deadline: Option<string>, thumbnail: Option<string>,
    organizerId: Option<nat>, organizerName: Option<string>, companyType: Option<string>,
    targetAudience: Option<string>, applicationStart: Option<string>,
    applicationEnd: Option<string>, activityPeriod: Option<string>, recruitCount: Option<string>,
    activityArea: Option<string>, homepage: Option<string>, tagsActivity: Option<seq<string>>)

  /** `matching.organizerId ? String(matching.organizerId) : ''`: the id 0 is falsy. */
  function IdText(id: Option<nat>): (r: string)
    ensures r == "" <==> id.None? || id.value == 0
  {
    if id.Some? && id.value != 0 then DigitsHaveNoSlashOrSpace(id.value); DecimalString(id.value) else ""
  }

  /** The form values the load effect sets from a stored post. */
  function LoadedValues(m: MatchingResponse): (v: FormValues)
    ensures v.title == m.title && v.kind == m.kind
    ensures var parsed := ParseMembers(m.members);
      v.currentMembers == parsed.current && v.maxMembers == parsed.max
    ensures '.' !in v.applicationStart && '.' !in v.applicationEnd
  {
    var parsed := ParseMembers(m.members);
    FormValues(
      m.title, m.kind, OrEmpty(m.category), OrEmpty(m.description), parsed.max, parsed.current,
      OrEmpty(m.deadline), OrEmpty(m.thumbnail), IdText(m.organizerId), OrEmpty(m.organizerName),
      OrEmpty(m.companyType), OrEmpty(m.targetAudience),
      ToHyphenDate(OrEmpty(m.applicationStart)), ToHyphenDate(OrEmpty(m.applicationEnd)),
      OrEmpty(m.activityPeriod), OrEmpty(m.recruitCount), OrEmpty(m.activityArea),
      OrEmpty(m.homepage), Join(if m.tagsActivity.Some? then m.tagsActivity.value else [], ", "))
  }

  /** `null` and `''` both come back as `undefined`; any other text comes back as it is. */
  function NonBlank(value: Option<string>): (r: Option<string>)
    ensures r.None? <==> value.None? || value.value == ""
    ensures r.Some? ==> r.value == value.value
  {
    if value.Some? && value.value != "" then value else None
  }

  /** `toArray` undoes the load effect's `join(', ')` of well-formed tags; no tags means `undefined`. */
  lemma TagsRoundTrip(tags: seq<string>)
    requires WellFormedTags(tags)
    ensures var text := Join(tags, ", ");
      (if text != "" then Some(ToArray(text)) else None) == (if tags != [] then Some(tags) else None)
  {
    ToArrayJoin(tags);
    if tags != [] {
      if |tags| == 1 {
        assert Join(tags, ", ") == tags[0];
      } else {
        assert |Join(tags, ", ")| >= |tags[0] + ", "|;
      }
    }
  }

  /**
   * Opening a stored post for editing and submitting it untouched sends back its title, its
   * type and every plain text field, with `null` and `''` both sent as `undefined`.
   */
  lemma EditRoundTripTexts(m: MatchingResponse)
    ensures var p := Payload(LoadedValues(m));
      && p.title == m.title && p.kind == m.kind
      && p.category == NonBlank(m.category) && p.description == NonBlank(m.description)
      && p.deadline == NonBlank(m.deadline) && p.thumbnail == NonBlank(m.thumbnail)
      && p.organizerName == NonBlank(m.organizerName) && p.companyType == NonBlank(m.companyType)
      && p.targetAudience == NonBlank(m.targetAudience) && p.activityPeriod == NonBlank(m.activityPeriod)
      && p.recruitCount == NonBlank(m.recruitCount) && p.activityArea == NonBlank(m.activityArea)
      && p.homepage == NonBlank(m.homepage)
  {
  }

  /**
   * The same round trip for the converted fields: the application dates (stored dotted,
   * without hyphens), a positive organizer id, and a non-empty list of well-formed tags;
   * an empty tag list is sent as `undefined`.
   */
  lemma EditRoundTrip(m: MatchingResponse)
    requires m.applicationStart.Some? ==> '-' !in m.applicationStart.value
    requires m.applicationEnd.Some? ==> '-' !in m.applicationEnd.value
    requires m.tagsActivity.Some? ==> WellFormedTags(m.tagsActivity.value)
    ensures var p := Payload(LoadedValues(m));
      && p.applicationStart == NonBlank(m.applicationStart)
      && p.applicationEnd == NonBlank(m.applicationEnd)
      && p.organizerId == (if m.organizerId.Some? && m.organizerId.value != 0 then Some(Integer(m.organizerId.value)) else None)
      && p.tagsActivity == (if m.tagsActivity.Some? && m.tagsActivity.value != [] then m.tagsActivity else None)
  {
    DotHyphenRoundTrip(OrEmpty(m.applicationStart));
    DotHyphenRoundTrip(OrEmpty(m.applicationEnd));
    if m.organizerId.Some? && m.organizerId.value != 0 {
      NumberRoundTrip(m.organizerId.value);
    }
    TagsRoundTrip(if m.tagsActivity.Some? then m.tagsActivity.value else []);
  }

  // ---------------------------------------------------------------- page state

  class MatchingFormPage {
    /** The route's `:id` parameter. */
    const id: Option<string>
    var values: FormValues
    var isLoading: bool
    var error: Option<string>
    /** The route `navigate` was last called with. */
    var navigatedTo: Option<string>

    constructor (id: Option<string>)
      ensures this.id == id && values == DEFAULT_VALUES
      ensures !isLoading && error.None? && navigatedTo.None?
    {
      this.id := id;
      values := DEFAULT_VALUES;
      isLoading := false;
      error := None;
      navigatedTo := None;
    }

    /**
     * The edit-mode load effect once `getMatching(Number(id))` settles: the fields are set
     * one by one from the post, or the error message is shown and the fields are kept.
     */
    method OnLoaded(result: Result<MatchingResponse, ApiClient.RequestError>)
      requires IsEdit(id)
      modifies this
      ensures result.Success? ==> values == LoadedValues(result.value) && error == old(error)
      ensures result.Failure? ==>
                values == old(values) && error == Some(ApiClient.GetErrorMessage(result.error))
      ensures isLoading == old(isLoading) && navigatedTo == old(navigatedTo)
    {
      match result
      case Success(m) =>
        values := values.(title := m.title);
        values := values.(kind := m.kind);
        values := values.(category := OrEmpty(m.category));
        values := values.(description := OrEmpty(m.description));
        var parsed := ParseMembers(m.members);
        values := values.(currentMembers := parsed.current);
        values := values.(maxMembers := parsed.max);
        values := values.(deadline := OrEmpty(m.deadline));
        values := values.(thumbnail := OrEmpty(m.thumbnail));
        values := values.(organizerId := IdText(m.organizerId));
        values := values.(organizerName := OrEmpty(m.organizerName));
        values := values.(companyType := OrEmpty(m.companyType));
        values := values.(targetAudience := OrEmpty(m.targetAudience));
        values := values.(applicationStart := ToHyphenDate(OrEmpty(m.applicationStart)));
        values := values.(applicationEnd := ToHyphenDate(OrEmpty(m.applicationEnd)));
        values := values.(activityPeriod := OrEmpty(m.activityPeriod));
        values := values.(recruitCount := OrEmpty(m.recruitCount));
        values := values.(activityArea := OrEmpty(m.activityArea));
        values := values.(homepage := OrEmpty(m.homepage));
        values := values.(tagsActivity := Join(if m.tagsActivity.Some? then m.tagsActivity.value else [], ", "));
      case Failure(e) =>
        error := Some(ApiClient.GetErrorMessage(e));
    }

    /**
     * `onSubmit(submitted)` once the create or update call has settled with `outcome`: the
     * payload goes to update with `Number(id)` in edit mode and to create otherwise; only
     * success navigates to `/matching`; loading ends either way.
     */
    method OnSubmit(submitted: FormValues, outcome: Result<(), ApiClient.RequestError>)
      returns (call: Submission<MatchingRequest>)
      modifies this
      ensures call == Dispatch(id, Payload(submitted))
      ensures outcome.Success? ==> navigatedTo == Some(MATCHING_ROUTE) && error.None?
      ensures outcome.Failure? ==>
                navigatedTo == old(navigatedTo) && error == Some(ApiClient.GetErrorMessage(outcome.error))
      ensures !isLoading && values == old(values)
    {
      isLoading := true;
      error := None;
      var payload := Payload(submitted);
      if IsEdit(id) {
        call := Update(NumberOf(id.value), payload);
      } else {
        call := Create(payload);
      }
      match outcome {
        case Success(_) =>
          navigatedTo := Some(MATCHING_ROUTE);
        case Failure(e) =>
          error := Some(ApiClient.GetErrorMessage(e));
      }
      isLoading := false;
    }
  }
}
