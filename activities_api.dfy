/**
 * The multipart body builders of the activities API (src/api/activities.ts). `create` sends an
 * optional field only when it is a non-empty string; `update` sends it whenever it is not
 * `undefined`, with `null` sent as the empty string. That is the only difference between them.
 */
module ActivitiesApi {
  import opened Wrappers
  import opened JsStrings
  import opened Multipart

  const BASE: string := "/api/activities"
  const THUMBNAIL_KEY: string := "thumbnail"

  /** The fields every request carries, in the order they are appended. */
  const REQUIRED_KEYS: seq<string> := ["category", "title", "content", "author"]
  /** The optional fields, in the order they are appended. */
  const OPTIONAL_KEYS: seq<string> :=
    ["thumbnailUrl", "organization", "startDate", "endDate", "applyUrl", "recruitmentRoles", "contactUrl", "status"]

  /** `ActivityPostRequestDto` */
  datatype ActivityPostRequest = ActivityPostRequest(
    category: string, title: string, content: string, author: string,
    thumbnailUrl: JsOpt, organization: JsOpt, startDate: JsOpt, endDate: JsOpt,
    applyUrl: JsOpt, recruitmentRoles: JsOpt, contactUrl: JsOpt, status: JsOpt)

  /** The optional fields' values, in `OPTIONAL_KEYS` order. */
  function OptionalValues(d: ActivityPostRequest): (vs: seq<JsOpt>)
    ensures |vs| == |OPTIONAL_KEYS|
  {
    [d.thumbnailUrl, d.organization, d.startDate, d.endDate, d.applyUrl, d.recruitmentRoles, d.contactUrl, d.status]
  }

  function RequiredCandidates(d: ActivityPostRequest): seq<Candidate> {
    [ Candidate("category", Some(Text(d.category))), Candidate("title", Some(Text(d.title))),
      Candidate("content", Some(Text(d.content))), Candidate("author", Some(Text(d.author))) ]
  }

  /** The two presence rules for optional fields: `create`'s and `update`'s. */
  datatype Rule = Truthy | Defined

  function Decide(rule: Rule, v: JsOpt): Option<Part> {
    match rule
    case Truthy => IfTruthy(v)
    case Defined => IfDefined(v)
  }

  /** The optional fields under one presence rule. */
  function OptionalCandidates(d: ActivityPostRequest, rule: Rule): seq<Candidate> {
    [ Candidate("thumbnailUrl", Decide(rule, d.thumbnailUrl)), Candidate("organization", Decide(rule, d.organization)),
      Candidate("startDate", Decide(rule, d.startDate)), Candidate("endDate", Decide(rule, d.endDate)),
      Candidate("applyUrl", Decide(rule, d.applyUrl)), Candidate("recruitmentRoles", Decide(rule, d.recruitmentRoles)),
      Candidate("contactUrl", Decide(rule, d.contactUrl)), Candidate("status", Decide(rule, d.status)) ]
  }

  /** `prefix` followed by the optional fields, one append at a time. */
  function WithOptionals(prefix: seq<Candidate>, d: ActivityPostRequest, rule: Rule): (cs: seq<Candidate>)
    ensures cs == prefix + OptionalCandidates(d, rule)
  {
    prefix + [Candidate("thumbnailUrl", Decide(rule, d.thumbnailUrl))] + [Candidate("organization", Decide(rule, d.organization))]
    + [Candidate("startDate", Decide(rule, d.startDate))] + [Candidate("endDate", Decide(rule, d.endDate))]
    + [Candidate("applyUrl", Decide(rule, d.applyUrl))] + [Candidate("recruitmentRoles", Decide(rule, d.recruitmentRoles))]
    + [Candidate("contactUrl", Decide(rule, d.contactUrl))] + [Candidate("status", Decide(rule, d.status))]
  }

  function CreateCandidates(d: ActivityPostRequest, thumbnail: Option<File>): seq<Candidate> {
    RequiredCandidates(d) + OptionalCandidates(d, Truthy) + [Candidate(THUMBNAIL_KEY, IfFile(thumbnail))]
  }

  function UpdateCandidates(d: ActivityPostRequest, thumbnail: Option<File>): seq<Candidate> {
    RequiredCandidates(d) + OptionalCandidates(d, Defined) + [Candidate(THUMBNAIL_KEY, IfFile(thumbnail))]
  }

  /** The optional appends of `create`. */
  method AppendOptionalsIfTruthy(formData: FormData, d: ActivityPostRequest)
    requires formData.Valid()
    modifies formData
    ensures formData.Valid() && formData.decided == WithOptionals(old(formData.decided), d, Truthy)
  {
    formData.AppendIfTruthy("thumbnailUrl", d.thumbnailUrl);
    formData.AppendIfTruthy("organization", d.organization);
    formData.AppendIfTruthy("startDate", d.startDate);
    formData.AppendIfTruthy("endDate", d.endDate);
    formData.AppendIfTruthy("applyUrl", d.applyUrl);
    formData.AppendIfTruthy("recruitmentRoles", d.recruitmentRoles);
    formData.AppendIfTruthy("contactUrl", d.contactUrl);
    formData.AppendIfTruthy("status", d.status);
  }

  /** The optional appends of `update`. */
  method AppendOptionalsIfDefined(formData: FormData, d: ActivityPostRequest)
    requires formData.Valid()
    modifies formData
    ensures formData.Valid() && formData.decided == WithOptionals(old(formData.decided), d, Defined)
  {
    formData.AppendIfDefined("thumbnailUrl", d.thumbnailUrl);
    formData.AppendIfDefined("organization", d.organization);
    formData.AppendIfDefined("startDate", d.startDate);
    formData.AppendIfDefined("endDate", d.endDate);
    formData.AppendIfDefined("applyUrl", d.applyUrl);
    formData.AppendIfDefined("recruitmentRoles", d.recruitmentRoles);
    formData.AppendIfDefined("contactUrl", d.contactUrl);
    formData.AppendIfDefined("status", d.status);
  }

  /** `activitiesApi.create(data, thumbnail)`: the request it sends. */
  method Create(d: ActivityPostRequest, thumbnail: Option<File>) returns (req: MultipartRequest)
    ensures req == MultipartRequest(Post, BASE, Present(CreateCandidates(d, thumbnail)))
  {
    var formData := new FormData();
    formData.Append("category", Text(d.category));
    formData.Append("title", Text(d.title));
    formData.Append("content", Text(d.content));
    formData.Append("author", Text(d.author));
    assert formData.decided == RequiredCandidates(d);
    AppendOptionalsIfTruthy(formData, d);
    formData.AppendIfFile(THUMBNAIL_KEY, thumbnail);
    req := MultipartRequest(Post, BASE, formData.entries);
  }

  /** `activitiesApi.update(id, data, thumbnail)`: the request it sends. */
  method Update(id: nat, d: ActivityPostRequest, thumbnail: Option<File>) returns (req: MultipartRequest)
    ensures req == MultipartRequest(Put, BASE + "/" + DecimalString(id), Present(UpdateCandidates(d, thumbnail)))
  {
    var formData := new FormData();
    formData.Append("category", Text(d.category));
    formData.Append("title", Text(d.title));
    formData.Append("content", Text(d.content));
    formData.Append("author", Text(d.author));
    assert formData.decided == RequiredCandidates(d);
    AppendOptionalsIfDefined(formData, d);
    formData.AppendIfFile(THUMBNAIL_KEY, thumbnail);
    req := MultipartRequest(Put, BASE + "/" + DecimalString(id), formData.entries);
  }

  // ---------------------------------------------------------------- properties of the bodies

  /** Every key is used once, so each key's entry is decided by its own rule alone. */
  lemma KeysDistinct(d: ActivityPostRequest, rule: Rule, thumbnail: Option<File>)
    ensures var cs := RequiredCandidates(d) + OptionalCandidates(d, rule) + [Candidate(THUMBNAIL_KEY, IfFile(thumbnail))];
      CandidateKeys(cs) == REQUIRED_KEYS + OPTIONAL_KEYS + [THUMBNAIL_KEY]
      && DistinctKeys(CandidateKeys(cs))
  {
    var cs := RequiredCandidates(d) + OptionalCandidates(d, rule) + [Candidate(THUMBNAIL_KEY, IfFile(thumbnail))];
    assert CandidateKeys(cs) == REQUIRED_KEYS + OPTIONAL_KEYS + [THUMBNAIL_KEY];
    FixedKeysDistinct();
  }

  /** The thirteen keys of an activity body are pairwise different. */
  lemma FixedKeysDistinct()
    ensures DistinctKeys(REQUIRED_KEYS + OPTIONAL_KEYS + [THUMBNAIL_KEY])
  {
    var ks := REQUIRED_KEYS + OPTIONAL_KEYS + [THUMBNAIL_KEY];
    forall i, j | 0 <= i < j < |ks| ensures ks[i] != ks[j] {
      if |ks[i]| == |ks[j]| {
        assert ks[i][0] != ks[j][0] || ks[i][1] != ks[j][1] || ks[i][2] != ks[j][2] || ks[i][5] != ks[j][5];
      }
    }
  }

  /** Both builders start with `category`, `title`, `content`, `author`, in that order. */
  lemma RequiredFirst(d: ActivityPostRequest, thumbnail: Option<File>)
    ensures var expected := [ Entry("category", Text(d.category)), Entry("title", Text(d.title)),
                              Entry("content", Text(d.content)), Entry("author", Text(d.author)) ];
      var create := Present(CreateCandidates(d, thumbnail));
      var update := Present(UpdateCandidates(d, thumbnail));
      |create| >= 4 && create[..4] == expected && |update| >= 4 && update[..4] == expected
  {
    var last := [Candidate(THUMBNAIL_KEY, IfFile(thumbnail))];
    RequiredOpen(d, OptionalCandidates(d, Truthy) + last);
    RequiredOpen(d, OptionalCandidates(d, Defined) + last);
    assert CreateCandidates(d, thumbnail) == RequiredCandidates(d) + (OptionalCandidates(d, Truthy) + last);
    assert UpdateCandidates(d, thumbnail) == RequiredCandidates(d) + (OptionalCandidates(d, Defined) + last);
  }

  /** Whatever follows them, the four required appends open the body. */
  lemma RequiredOpen(d: ActivityPostRequest, rest: seq<Candidate>)
    ensures var body := Present(RequiredCandidates(d) + rest);
      |body| >= 4 && body[..4] == Present(RequiredCandidates(d))
      && Present(RequiredCandidates(d)) == [ Entry("category", Text(d.category)), Entry("title", Text(d.title)),
                                            Entry("content", Text(d.content)), Entry("author", Text(d.author)) ]
  {
    var required := RequiredCandidates(d);
    PresentAllAppended(required);
    PresentAppend(required, rest);
  }

  /**
   * `create` sends an optional field exactly when it is a non-empty string, with that string;
   * `''`, `null` and `undefined` are all left out.
   */
  lemma CreateOptionalField(d: ActivityPostRequest, thumbnail: Option<File>, i: nat)
    requires i < |OPTIONAL_KEYS|
    ensures var v := OptionalValues(d)[i];
      && (IsTruthy(v) ==> Lookup(Present(CreateCandidates(d, thumbnail)), OPTIONAL_KEYS[i]) == Some(Text(v.s)))
      && (!IsTruthy(v) ==> Lookup(Present(CreateCandidates(d, thumbnail)), OPTIONAL_KEYS[i]) == None)
  {
    KeysDistinct(d, Truthy, thumbnail);
    var cs := CreateCandidates(d, thumbnail);
    assert cs[4 + i] == Candidate(OPTIONAL_KEYS[i], IfTruthy(OptionalValues(d)[i]));
    PresentLookup(cs, 4 + i);
  }

  /**
   * `update` sends an optional field exactly when it is not `undefined`: a string as it is
   * (the empty string included) and `null` as the empty string.
   */
  lemma UpdateOptionalField(d: ActivityPostRequest, thumbnail: Option<File>, i: nat)
    requires i < |OPTIONAL_KEYS|
    ensures var v := OptionalValues(d)[i];
      var got := Lookup(Present(UpdateCandidates(d, thumbnail)), OPTIONAL_KEYS[i]);
      && (v.Undefined? ==> got == None)
      && (v.Null? ==> got == Some(Text("")))
      && (v.Str? ==> got == Some(Text(v.s)))
  {
    KeysDistinct(d, Defined, thumbnail);
    var cs := UpdateCandidates(d, thumbnail);
    assert cs[4 + i] == Candidate(OPTIONAL_KEYS[i], IfDefined(OptionalValues(d)[i]));
    PresentLookup(cs, 4 + i);
  }

  /** The thumbnail is the last entry when it is supplied and absent otherwise, in both builders. */
  lemma ThumbnailLast(d: ActivityPostRequest, thumbnail: Option<File>)
    ensures var create := Present(CreateCandidates(d, thumbnail));
      var update := Present(UpdateCandidates(d, thumbnail));
      && (thumbnail.Some? ==> && create[|create| - 1] == Entry(THUMBNAIL_KEY, Blob(thumbnail.value))
                              && update[|update| - 1] == Entry(THUMBNAIL_KEY, Blob(thumbnail.value)))
      && (thumbnail.None? ==> Lookup(create, THUMBNAIL_KEY) == None && Lookup(update, THUMBNAIL_KEY) == None)
  {
    var create := CreateCandidates(d, thumbnail);
    var update := UpdateCandidates(d, thumbnail);
    if thumbnail.Some? {
      PresentLast(create);
      PresentLast(update);
    } else {
      KeysDistinct(d, Truthy, thumbnail);
      KeysDistinct(d, Defined, thumbnail);
      PresentLookup(create, |create| - 1);
      PresentLookup(update, |update| - 1);
    }
  }

  /** The keys of either body follow the fixed order: required, optional, thumbnail. */
  lemma KeyOrder(d: ActivityPostRequest, thumbnail: Option<File>)
    ensures IsSubsequence(Keys(Present(CreateCandidates(d, thumbnail))), REQUIRED_KEYS + OPTIONAL_KEYS + [THUMBNAIL_KEY])
    ensures IsSubsequence(Keys(Present(UpdateCandidates(d, thumbnail))), REQUIRED_KEYS + OPTIONAL_KEYS + [THUMBNAIL_KEY])
  {
    KeysDistinct(d, Truthy, thumbnail);
    KeysDistinct(d, Defined, thumbnail);
    PresentKeysInOrder(CreateCandidates(d, thumbnail));
    PresentKeysInOrder(UpdateCandidates(d, thumbnail));
  }

  /** When no optional field is `null` or `''`, both builders send the same body. */
  lemma CreateUpdateAgree(d: ActivityPostRequest, thumbnail: Option<File>)
    requires forall v :: v in OptionalValues(d) ==> v.Undefined? || IsTruthy(v)
    ensures Present(CreateCandidates(d, thumbnail)) == Present(UpdateCandidates(d, thumbnail))
  {
    assert OptionalCandidates(d, Truthy) == OptionalCandidates(d, Defined) by {
      var vs := OptionalValues(d);
      assert forall i :: 0 <= i < |vs| ==> IfTruthy(vs[i]) == IfDefined(vs[i]) by {
        forall i | 0 <= i < |vs| ensures IfTruthy(vs[i]) == IfDefined(vs[i]) {
          assert vs[i] in vs;
        }
      }
      assert vs[0] == d.thumbnailUrl && vs[7] == d.status;
    }
  }

  /** An empty optional string is where the builders part: `create` drops it, `update` sends it. */
  lemma EmptyStringSplitsBuilders(d: ActivityPostRequest, thumbnail: Option<File>)
    requires d.organization == Str("")
    ensures Lookup(Present(CreateCandidates(d, thumbnail)), "organization") == None
    ensures Lookup(Present(UpdateCandidates(d, thumbnail)), "organization") == Some(Text(""))
  {
    CreateOptionalField(d, thumbnail, 1);
    UpdateOptionalField(d, thumbnail, 1);
  }
}
