# Admin front-end: a Dafny model of its logic

This project models the logic of the St2usy admin front-end. The front-end is a React and
TypeScript single-page application. Administrators use it to sign in and to maintain the
notices, activities, gallery, calendar, matching posts, resources and pledge progress of a
student-council site. Most of the application is screens that fetch, render and submit. This
model covers the parts that make decisions:

- **The authenticated access layer.** The shared HTTP client (`src/api/client.ts`) resolves
  the base URL. It attaches the stored token as a bearer header. On a 401 outside the login
  and logout calls it clears the token and raises one `auth:logout` event. It turns any error
  into a message (`getErrorMessage`). The `AuthProvider` session state machine
  (`src/contexts/AuthContext.tsx`) holds `isAuthenticated` and `isLoading`, and reacts to the
  mount-time verify, to login, to logout and to that event.
- **Validators and converters.** These are `validateImageFile`, the calendar date rule and its
  submit order, and the matching form's converters: the `-`/`.` date swap, the comma-list
  split, `"current/max"` member parsing and the empty-to-`undefined` payload.
- **The multipart builders** of the activities, notices, gallery and resources APIs. Each
  fills a `FormData` one conditional `append` at a time.
- **Page rules.** These cover pledge counting and the toggle target, the newest-first calendar
  list and its delete/refetch flow, and the activity edit that keeps its stored thumbnail.
  They also cover the gallery create that requires an image, the create/update dispatch of
  every form page, and the `FileUpload` validation gate.

Layout: one module per source file, plus four shared modules.

- `Wrappers` holds `Option` and `Result`.
- `JsStrings` models the JavaScript string operations the code uses: `includes`, `replace`,
  `split`, `join`, `trim`, `String(n)` and `Number(s)`.
- `Multipart` models a `FormData` as the sequence of its appends.
- `Runtime` models `localStorage`'s `auth_token` as `Option<string>`, and the window event bus
  as a count of dispatched `auth:logout` events.

`FormPages` holds what the form pages share: `isEdit` and the create-or-update dispatch.

Code that updates state step by step becomes a `class` with `modifies` clauses. This covers
the interceptors, the provider, `FormData`, the picker and every page. Pure code becomes
functions and lemmas.

An asynchronous handler is modelled at the point where its awaited call settles. The outcome
of the call (`Result<_, RequestError>`) is a parameter of the method. The method's contract
states the state after the continuation has run. Library parsing becomes a parameter:

- `new URL(s).origin` is `originOf: string -> Option<string>`, with `None` where the
  constructor throws.
- `new Date(s)` is `parse: string -> Option<int>`, with `None` for an invalid date.
- `new Date(s).getTime()` in the calendar list is `timeOf: string -> int`.

`Number(s)` is interpreted on strings of decimal digits (`JsNumber`). Any other text is
carried along uninterpreted.

A builder's body is described by a list of *candidates*: one per key, in append order, each
holding the value that is appended or `None`. `Present(candidates)` is the resulting body.
Every `FormData` method keeps `entries == Present(decided)`. Each builder's `ensures` ties the
body it returns to its candidate list, and the lemmas state what that body contains.

## Model

| member | source | states |
|---|---|---|
| ApiClient.ConfiguredBaseUrl | src/api/client.ts:10 | The configured URL when it is set and non-empty; otherwise `http://localhost:8080`. Never empty. |
| ApiClient.GetApiBaseUrl | src/api/client.ts:9-23 | The result is `''` exactly when in a browser and the configured URL parses to the page's origin. Otherwise it is the configured URL; an unparseable URL also gives the configured URL. Outside a browser it is always the configured URL. |
| ApiClient.RequestConfig.constructor | src/api/client.ts:35 | A request config holds its URL and its headers. |
| ApiClient.OnRequest | src/api/client.ts:34-45 | The same config is passed on, with its URL unchanged. A stored non-empty token sets `Authorization` to `Bearer <token>` and keeps the other headers. Without a token the headers are untouched. |
| ApiClient.OnResponseError | src/api/client.ts:48-65 | The error is always rejected unchanged. An event is dispatched exactly for a 401 whose URL contains neither the login nor the logout path. Then the token is removed and exactly one `auth:logout` is dispatched. In every other case storage and the event count are unchanged. |
| ApiClient.AuthEndpoints | src/api/client.ts:54 | The login and logout paths are auth endpoints; the verify path (`src/api/auth.ts:19`) is not. |
| ApiClient.AuthCallsExcluded | src/api/client.ts:51-56 | An error from the login or logout call never triggers recovery. |
| ApiClient.VerifyCallRecovered | src/api/client.ts:51-61 | A 401 from the verify call goes through recovery. |
| ApiClient.Messages | src/api/client.ts:85 | `errors.map((e) => e.message)`: same length, each message in its position. |
| ApiClient.NoResponseMessages | src/api/client.ts:71-79 | Without a response: `ERR_NETWORK` or `'Network Error'` gives the network message, and this wins over `ECONNABORTED`. `ECONNABORTED` alone gives the timeout message. Otherwise the result is the error's message, or `'서버에 연결할 수 없습니다.'` when that is empty. |
| ApiClient.ResponseMessages | src/api/client.ts:80-88 | With a response: a non-empty body message wins. Then the non-empty field-error list, joined with `', '` in order. Then the error's own message, then the generic text. |
| ApiClient.MessageEmptyOnlyForBlankFieldError | src/api/client.ts:68-90 | `getErrorMessage` returns `''` exactly for a response with no body message and a single field error whose message is empty. |
| ApiClient.JoinEmpty | src/api/client.ts:85 | A `', '`-join is empty exactly for no parts or one empty part. |
| ApiClient.GetErrorMessage | src/api/client.ts:68-90 | A thrown value that is not an axios error gives the generic text. An empty message only ever comes from a response with no body message and a non-empty field-error list. The full case order is stated by `NoResponseMessages` and `ResponseMessages`. |
| ApiClient.IsUnauthorized | src/api/client.ts:51 | `error.response?.status === 401`: an axios error with a response whose status is 401. A definition, used by `OnResponseError`'s contract. |
| ApiClient.RequestUrl | src/api/client.ts:53 | `error.config?.url \|\| ''`: the request URL, or `''` when there is none. A definition, used by `OnResponseError`'s contract. |
| ApiClient.IsAuthEndpoint | src/api/client.ts:54 | A URL containing the login path or the logout path. A definition; `AuthEndpoints` states which calls it covers. |
| Runtime.Browser.constructor | src/contexts/AuthContext.tsx:20 | The store starts with the given token and no events dispatched. |
| Runtime.Browser.StoreToken | src/contexts/AuthContext.tsx:57 | `setItem('auth_token', token)` stores exactly that token. |
| Runtime.Browser.RemoveToken | src/api/client.ts:58 | `removeItem('auth_token')` leaves no token. |
| Runtime.Browser.DispatchLogout | src/api/client.ts:60 | One more `auth:logout` event; the token is unchanged. |
| Runtime.TokenPresent | src/api/client.ts:36-37 | `if (token)`: a stored token counts only when it is a non-empty string. A definition, used by `OnRequest` and `Mount`. |
| AuthContext.UseAuth | src/contexts/AuthContext.tsx:79-85 | Outside a provider it fails with `'useAuth must be used within an AuthProvider'`; inside one it returns the context. |
| AuthContext.AuthProvider.constructor | src/contexts/AuthContext.tsx:15-16 | The initial state is not authenticated and loading. |
| AuthContext.AuthProvider.Mount | src/contexts/AuthContext.tsx:18-52 | The listener is registered. A verify call is pending exactly when a non-empty token is stored. Loading stays true only while that call is pending. Without a token, loading ends at once and the state stays unauthenticated. |
| AuthContext.AuthProvider.Unmount | src/contexts/AuthContext.tsx:49-51 | The listener is removed and nothing else changes. |
| AuthContext.AuthProvider.HandleAuthLogout | src/contexts/AuthContext.tsx:42-45 | Sets unauthenticated and removes the token. Loading and the listener are unchanged. |
| AuthContext.AuthProvider.Deliver | src/contexts/AuthContext.tsx:47 | A dispatched event reaches the provider only while it listens, and then logs it out. Otherwise nothing changes. |
| AuthContext.AuthProvider.VerifyToken | src/api/auth.ts:16-23 | `verifyToken` yields true exactly on success. A 401 on the verify call also goes through the client's recovery: token removed, one event dispatched and delivered. Any other failure changes no storage. |
| AuthContext.AuthProvider.OnVerifySettled | src/contexts/AuthContext.tsx:22-36 | Authenticated exactly when verify returned true. Otherwise the token is removed. Loading ends false in every case and is never set back to true. |
| AuthContext.AuthProvider.MountVerify | src/contexts/AuthContext.tsx:21-36 | The mount verify as a whole: authenticated exactly on success. Any failure removes the token. A 401 also dispatches exactly one event (through `src/api/client.ts:54`). Loading ends false. |
| AuthContext.AuthProvider.Login | src/contexts/AuthContext.tsx:54-62 | Success stores the response token and sets authenticated. Failure rethrows the same error and leaves the token and the state unchanged. |
| AuthContext.AuthProvider.Logout | src/contexts/AuthContext.tsx:64-70 | Removes the token and sets unauthenticated at once. A failing backend call changes nothing locally. The backend call carries no `Authorization` header. |
| AuthContext.SessionExpires | src/api/client.ts:56-60 | From a stored token to a later ordinary 401: the provider ends unauthenticated, not loading, with no token and exactly one event. |
| Validation.SizeMessage | src/utils/validation.ts:10 | The size message, built from `MAX_FILE_SIZE / 1024 / 1024` printed in decimal. A definition; `SizeMessageSays10MB` states its text. |
| Validation.SizeMessageSays10MB | src/utils/validation.ts:10 | The size message reads `'파일 크기는 10MB를 초과할 수 없습니다.'` (`MAX_FILE_SIZE / 1024 / 1024` is 10, `src/utils/constants.ts:13`). |
| Validation.ValidateImageFile | src/utils/validation.ts:4-18 | No file gives no error. A size above `MAX_FILE_SIZE` gives the size message, whatever the type. An allowed size with a type outside the allow-list (`src/utils/constants.ts:14`) gives the format message. The result is no error exactly when the size is within the limit and the type is allowed. |
| Validation.SizeBoundIsInclusive | src/utils/validation.ts:9-11 | A file of exactly `MAX_FILE_SIZE` bytes passes; one byte more is refused. |
| Multipart.IfTruthy | src/api/activities.ts:28 | `if (value) append`: sent exactly when the value is a non-empty string. |
| Multipart.IfDefined | src/api/activities.ts:54 | `if (value !== undefined) append(value ?? '')`: sent unless undefined, with null sent as `''`. |
| Multipart.IfFile | src/api/activities.ts:36 | A file is sent exactly when supplied. |
| Multipart.Present | src/api/activities.ts:22-42 | The body of a sequence of guarded appends: never longer than the candidate list. |
| Multipart.PresentAppend | src/api/activities.ts:22-42 | The body of two append runs in a row is the first body followed by the second. |
| Multipart.PresentLookupAbsent | src/api/gallery.ts:67-69 | A key that is never appended is absent from the body. |
| Multipart.PresentAllAppended | src/api/resources.ts:105 | When every append happens, the body is exactly the appended pairs, in order. |
| Multipart.PresentLast | src/api/activities.ts:36 | When the final append happens, its pair is the last entry of the body. |
| Multipart.PresentCount | src/api/resources.ts:105 | Appending the same key `n` times gives `n` entries under that key. |
| Multipart.FormData.constructor | src/api/activities.ts:23 | `new FormData()` is empty. |
| Multipart.FormData.Append | src/api/activities.ts:24 | Adds exactly one entry at the end. |
| Multipart.FormData.Skip | src/api/activities.ts:28 | A guard that does not append records its decision and leaves the body unchanged. |
| Multipart.FormData.AppendIfTruthy | src/api/activities.ts:28-35 | A guarded append keeps the body equal to `Present` of the decisions so far. |
| Multipart.FormData.AppendIfDefined | src/api/activities.ts:54-61 | The same for the `!== undefined` guard. |
| Multipart.FormData.AppendIfFile | src/api/activities.ts:36 | The same for the file guard. |
| Multipart.PresentLookup | src/api/activities.ts:22-42 | With distinct keys, looking a key up in the body gives exactly that key's decision. |
| Multipart.PresentKeysInOrder | src/api/activities.ts:22-42 | The body's keys follow the order of the appends. |
| ActivitiesApi.OptionalValues | src/api/activities.ts:28-35 | One value per optional key, in key order. |
| ActivitiesApi.WithOptionals | src/api/activities.ts:28-35 | The optional appends extend whatever came before them, without touching it. |
| ActivitiesApi.AppendOptionalsIfTruthy | src/api/activities.ts:28-35 | `create`'s eight optional appends, each under the truthy rule, in the fixed order. |
| ActivitiesApi.AppendOptionalsIfDefined | src/api/activities.ts:54-61 | `update`'s eight optional appends, each under the `!== undefined` rule, in the fixed order. |
| ActivitiesApi.Create | src/api/activities.ts:22-42 | POST to `/api/activities` with the create body. |
| ActivitiesApi.Update | src/api/activities.ts:44-68 | PUT to `/api/activities/{id}` with the update body. |
| ActivitiesApi.KeysDistinct | src/api/activities.ts:24-36 | Required keys, then the optional keys in order (`thumbnailUrl`, `organization`, `startDate`, `endDate`, `applyUrl`, `recruitmentRoles`, `contactUrl`, `status`), then `thumbnail`. Every key is used once. |
| ActivitiesApi.RequiredFirst | src/api/activities.ts:24-27 | Both bodies start with `category`, `title`, `content`, `author` and their values. |
| ActivitiesApi.CreateOptionalField | src/api/activities.ts:28-35 | `create` sends an optional field exactly when it is a non-empty string; `''`, null and undefined are left out. |
| ActivitiesApi.UpdateOptionalField | src/api/activities.ts:54-61 | `update` sends an optional field unless it is undefined: a string as it is, `''` included, and null as `''`. |
| ActivitiesApi.ThumbnailLast | src/api/activities.ts:36 | In both builders a supplied thumbnail is the last entry, and no thumbnail means no such key. |
| ActivitiesApi.KeyOrder | src/api/activities.ts:24-36 | The keys of either body follow the fixed order. |
| ActivitiesApi.CreateUpdateAgree | src/api/activities.ts:28-35 | When no optional field is null or `''`, the two builders send the same body. |
| ActivitiesApi.EmptyStringSplitsBuilders | src/api/activities.ts:29 | An empty `organization` is dropped by `create` and sent as `''` by `update`. |
| NoticesApi.BoolString | src/api/notices.ts:28 | `String(b)` is `"true"` or `"false"`. |
| NoticesApi.FillNotice | src/api/notices.ts:23-35 | The appends shared by both builders fill the notice body, in order. |
| NoticesApi.CreateNotice | src/api/notices.ts:22-43 | POST to `/api/notices` with the notice body. |
| NoticesApi.UpdateNotice | src/api/notices.ts:46-71 | PUT to `/api/notices/{id}` with the same body as create. |
| NoticesApi.NoticeKeysDistinct | src/api/notices.ts:24-35 | The keys are `title`, `content`, `author`, `isPinned`, `category`, `image`, each once. |
| NoticesApi.NoticeFields | src/api/notices.ts:24-35 | Title, content and author are always sent. `isPinned` is sent whenever given, `false` included, as `"true"`/`"false"`. `category` is sent only when non-empty, and `image` only when supplied. |
| NoticesApi.NoticeLayout | src/api/notices.ts:24-35 | The body opens with title, content and author. A supplied image is the last entry. The keys keep their order. |
| GalleryApi.CreateGallery | src/api/gallery.ts:28-48 | POST to `/api/gallery`; the image is always sent. |
| GalleryApi.UpdateGallery | src/api/gallery.ts:51-77 | PUT to `/api/gallery/{id}`; the image only when supplied. With an image, the body equals create's. |
| GalleryApi.GalleryKeysDistinct | src/api/gallery.ts:30-40 | The keys are `title`, `description`, `photographer`, `category`, `image`, each once. |
| GalleryApi.GalleryFields | src/api/gallery.ts:30-39 | `title` is the first entry. Description, photographer and category are each sent exactly when non-empty, in that order. |
| GalleryApi.GalleryImage | src/api/gallery.ts:40 | A sent image is the last entry. An update without one has no `image` key (`src/api/gallery.ts:67-69`). |
| ResourcesApi.Key | src/api/resources.ts:51 | The string value of each `ResourceCategory`. A definition; `KeysNameCategories` states that it reads back. |
| ResourcesApi.Info | src/api/resources.ts:53-74 | `CATEGORY_INFO[category]`: its label, accepted types and description. A definition; `AcceptByCategory` and `LabelsDistinct` state its properties. |
| ResourcesApi.CategoryFromKey | src/api/resources.ts:51 | A string names a category only if that category's key is the string. |
| ResourcesApi.KeysNameCategories | src/api/resources.ts:44-53 | The four keys name the four categories and read back; no other string names one. |
| ResourcesApi.AcceptByCategory | src/api/resources.ts:53-74 | Finance accepts `application/pdf`; the other three accept `image/*`. |
| ResourcesApi.LabelsDistinct | src/api/resources.ts:53-74 | Every category has its own label. |
| ResourcesApi.FilesByCategoryQuery | src/api/resources.ts:116-125 | Page and size default to 0 and 20. |
| ResourcesApi.UploadFile | src/api/resources.ts:78-94 | POST to `/api/resources/upload` with the upload body. |
| ResourcesApi.UploadFileBody | src/api/resources.ts:84-88 | The body is `category`, then `file`, then `title` and `description`, each only when non-empty. |
| ResourcesApi.FileCandidates | src/api/resources.ts:105 | One `files` entry per file, in input order. |
| ResourcesApi.UploadMultipleFiles | src/api/resources.ts:97-113 | POST to `/api/resources/upload-multiple`. The `forEach` loop appends the files in order. |
| ResourcesApi.UploadMultipleBody | src/api/resources.ts:103-107 | After the category come exactly the given files, in order. The number of `files` entries is `files.length`. |
| ResourcesApi.UploadPdf | src/api/resources.ts:156-164 | POST to `/api/finance/reports/upload` with exactly one `file` entry. |
| FileUpload.DisplayUrl | src/components/common/FileUpload.tsx:47 | The `previewUrl` prop when non-empty, else the local preview. |
| FileUpload.Picker.constructor | src/components/common/FileUpload.tsx:12-20 | `accept` defaults to `image/*`; there is no preview yet. |
| FileUpload.Picker.HandleFileChange | src/components/common/FileUpload.tsx:22-45 | An empty selection reports `null` and clears the preview. A file refused by `validateImageFile` is alerted and the input cleared; the parent hears nothing. A valid file starts a preview read and is reported exactly once. The parent only ever hears of valid files. |
| FileUpload.Picker.OnReaderLoadEnd | src/components/common/FileUpload.tsx:40-42 | The read's data URL becomes the local preview. |
| FileUpload.AcceptDoesNotWiden | src/components/common/FileUpload.tsx:30 | Even with `accept="application/pdf"`, a PDF is refused with the format message. |
| FormPages.IsEdit | src/modules/matching/MatchingFormPage.tsx:55 | `isEdit = Boolean(id)`: the route has a non-empty `:id`. A definition; `Dispatch` states its effect. |
| FormPages.OrEmpty | src/modules/gallery/GalleryFormPage.tsx:45 | `value \|\| ''` and `value ?? ''`: null or missing gives `''`. |
| FormPages.Dispatch | src/modules/matching/MatchingFormPage.tsx:148-152 | An update for `Number(id)` exactly when the route has a non-empty id, and a create otherwise. The payload is passed on unchanged. |
| FormPages.DispatchRouteId | src/modules/matching/MatchingFormPage.tsx:149 | A route id written as `String(n)` updates item `n`. |
| JsStrings.Includes | src/api/client.ts:54 | `String.prototype.includes`, defined by recursion over start positions. `IncludesIffOccurs` relates it to a position-wise definition. |
| JsStrings.IncludesIffOccurs | src/api/client.ts:54 | `includes` holds exactly when the pattern occurs at some position. |
| JsStrings.ShortExcludes | src/api/client.ts:54 | A string shorter than the pattern never includes it. |
| JsStrings.ReplaceAll | src/modules/matching/MatchingFormPage.tsx:34-35 | A global one-character replace changes exactly that character, at every position. |
| JsStrings.ReplaceAllRoundTrip | src/modules/matching/MatchingFormPage.tsx:34-35 | Replacing `a` by `b` and back restores a string that had no `b`. |
| JsStrings.ReplaceAllRemoves | src/modules/matching/MatchingFormPage.tsx:34-35 | After replacing `a` by a different character, no `a` is left. |
| JsStrings.Split | src/modules/matching/MatchingFormPage.tsx:39 | `split` always yields at least one part. |
| JsStrings.SplitAtSeparator | src/modules/matching/MatchingFormPage.tsx:39-46 | The text before the first separator is the first part; the rest is split on. |
| JsStrings.SplitWithoutSeparator | src/modules/matching/MatchingFormPage.tsx:46 | A string without the separator splits into itself alone. |
| JsStrings.SplitJoin | src/modules/matching/MatchingFormPage.tsx:39 | `split` undoes `join` for parts without the separator. |
| JsStrings.Join | src/modules/matching/MatchingFormPage.tsx:113 | `Array.prototype.join`. A definition; `SplitJoin` states that `split` inverts it. |
| JsStrings.Trim | src/modules/matching/MatchingFormPage.tsx:40 | `String.prototype.trim`: leading, then trailing whitespace removed. A definition; the lemmas below state its properties. |
| JsStrings.TrimIsTrimmed | src/modules/matching/MatchingFormPage.tsx:40 | `trim()` leaves no whitespace at either end. |
| JsStrings.TrimOfTrimmed | src/modules/matching/MatchingFormPage.tsx:40 | `trim()` is the identity on a trimmed string. |
| JsStrings.TrimEmptyIffBlank | src/modules/calendar/CalendarFormPage.tsx:71 | `s.trim().length === 0` exactly when `s` is all whitespace. |
| JsStrings.TrimLeadingSpace | src/modules/matching/MatchingFormPage.tsx:40 | A space before a trimmed string is removed by `trim()`. |
| JsStrings.DigitChar | src/modules/matching/MatchingFormPage.tsx:103 | The character for a decimal digit is a digit with that value. |
| JsStrings.DecimalString | src/modules/matching/MatchingFormPage.tsx:103 | `String(n)` for a natural number, in decimal. A definition; `DecimalStringRoundTrip` states that it reads back. |
| JsStrings.DecimalStringRoundTrip | src/modules/matching/MatchingFormPage.tsx:103 | `String(n)` is a non-empty digit string that reads back as `n`. |
| JsStrings.NumberOf | src/modules/matching/MatchingFormPage.tsx:36 | `Number(s)` is an integer exactly for a non-empty digit string. |
| JsStrings.NumberOfDecimalString | src/modules/matching/MatchingFormPage.tsx:36 | `Number(String(n)) == n`. |
| MatchingForm.ToDotDate | src/modules/matching/MatchingFormPage.tsx:34 | Every `-` becomes `.`, nothing else changes, and no `-` is left. |
| MatchingForm.ToHyphenDate | src/modules/matching/MatchingFormPage.tsx:35 | Every `.` becomes `-`, nothing else changes, and no `.` is left. |
| MatchingForm.HyphenDotRoundTrip | src/modules/matching/MatchingFormPage.tsx:34-35 | `toHyphenDate(toDotDate(s)) == s` for `s` without `.`. |
| MatchingForm.DotHyphenRoundTrip | src/modules/matching/MatchingFormPage.tsx:107-108 | `toDotDate(toHyphenDate(s)) == s` for `s` without `-`: a stored date survives load and submit. |
| MatchingForm.ToNumberOrUndefined | src/modules/matching/MatchingFormPage.tsx:36 | `''` gives undefined. A digit string gives its number. Other text is kept uninterpreted. |
| MatchingForm.NumberRoundTrip | src/modules/matching/MatchingFormPage.tsx:103-134 | The organizer id written at load is read back as the same number. |
| MatchingForm.TrimAll | src/modules/matching/MatchingFormPage.tsx:40 | Each item trimmed, in place. |
| MatchingForm.NonEmpty | src/modules/matching/MatchingFormPage.tsx:41 | `filter(Boolean)`: every kept item is a non-empty item of the input, and every non-empty value of the input is kept. `NonEmptyCounts` states the multiplicities. |
| MatchingForm.NonEmptyCounts | src/modules/matching/MatchingFormPage.tsx:41 | The filter keeps every non-empty item exactly as often as it occurs and drops every empty one (`multiset(r) == multiset(items)["" := 0]`). |
| MatchingForm.NonEmptyInOrder | src/modules/matching/MatchingFormPage.tsx:41 | The filter keeps the order. |
| MatchingForm.NonEmptyOfFilled | src/modules/matching/MatchingFormPage.tsx:41 | `filter(Boolean)` keeps a list with no empty item as it is. |
| MatchingForm.SplitJoinedTags | src/modules/matching/MatchingFormPage.tsx:39 | Splitting `tags.join(', ')` on `,` gives the first tag, then each later tag with one leading space. |
| MatchingForm.ToArray | src/modules/matching/MatchingFormPage.tsx:37-41 | Every item is non-empty and trimmed. |
| MatchingForm.ToArrayInOrder | src/modules/matching/MatchingFormPage.tsx:37-41 | The items are the trimmed comma-separated pieces, in input order, with the empty ones dropped. Each non-empty piece is kept as often as it occurs (multiset equality), so duplicate tags survive. |
| MatchingForm.ToArrayJoin | src/modules/matching/MatchingFormPage.tsx:113-144 | `toArray(tags.join(', ')) == tags` for non-empty, trimmed, comma-free tags. |
| MatchingForm.TagsRoundTrip | src/modules/matching/MatchingFormPage.tsx:113-144 | Loaded tags come back as the same list, and no tags as undefined. |
| MatchingForm.MaxOf | src/modules/matching/MatchingFormPage.tsx:49 | `''` exactly when the trimmed segment is empty or `-`; otherwise the trimmed segment. |
| MatchingForm.ParseMembers | src/modules/matching/MatchingFormPage.tsx:42-51 | Null or `''` gives `{current:'', max:''}`. Both parts are trimmed. |
| MatchingForm.ParseMembersPair | src/modules/matching/MatchingFormPage.tsx:46-49 | `"a/b"` gives trimmed `a`, and trimmed `b` or `''` for `-`. |
| MatchingForm.ParseMembersIgnoresRest | src/modules/matching/MatchingFormPage.tsx:46 | Segments after the second are ignored. |
| MatchingForm.ParseMembersSingle | src/modules/matching/MatchingFormPage.tsx:46-49 | Without `/` the whole text is the current count and there is no maximum. |
| MatchingForm.MembersRoundTrip | src/modules/matching/MatchingFormPage.tsx:98-131 | Stored `"c/m"` is submitted back as the numbers `c` and `m`. |
| MatchingForm.MembersWithoutMaximum | src/modules/matching/MatchingFormPage.tsx:49 | Stored `"c/-"` is submitted back as `c` and no maximum. |
| MatchingForm.OrUndefined | src/modules/matching/MatchingFormPage.tsx:128 | `value \|\| undefined`: undefined exactly for `''`. |
| MatchingForm.Payload | src/modules/matching/MatchingFormPage.tsx:125-145 | Title and type are passed verbatim. Each of the eleven plain text fields is `OrUndefined` of its form text, so it is undefined exactly when the text is empty and the text otherwise. The counts, the organizer id, both application dates and the tags are each undefined exactly when their text is empty; sent dates contain no `-` and sent tags are non-empty and trimmed. |
| MatchingForm.PayloadValues | src/modules/matching/MatchingFormPage.tsx:130-144 | The values of the filled non-text fields: the counts and the organizer id are `Number` of their text, the application dates are `toDotDate` of their text (so they contain no `-`), and the tags are `toArray` of their text (non-empty, trimmed items). |
| MatchingForm.DefaultsSendNothingElse | src/modules/matching/MatchingFormPage.tsx:66-86 | The untouched defaults send only the title and type `study`. |
| MatchingForm.IdText | src/modules/matching/MatchingFormPage.tsx:103 | The organizer id text is `''` exactly for a missing id or the falsy id 0. |
| MatchingForm.LoadedValues | src/modules/matching/MatchingFormPage.tsx:94-113 | The load sets title, type and the parsed members. The dates it sets carry no `.`. |
| MatchingForm.NonBlank | src/modules/matching/MatchingFormPage.tsx:96 | Null and `''` both become undefined after load and submit. |
| MatchingForm.EditRoundTripTexts | src/modules/matching/MatchingFormPage.tsx:94-145 | Loading a stored post and submitting it untouched sends back the title, the type and every text field, with null and `''` sent as undefined. |
| MatchingForm.EditRoundTrip | src/modules/matching/MatchingFormPage.tsx:103-144 | The same round trip for the hyphen-free dates, a positive organizer id and well-formed tags. |
| MatchingForm.MatchingFormPage.constructor | src/modules/matching/MatchingFormPage.tsx:57-87 | The form starts with the default values, no error and not loading. |
| MatchingForm.MatchingFormPage.OnLoaded | src/modules/matching/MatchingFormPage.tsx:89-119 | Success sets the fields to the loaded values. Failure shows `getErrorMessage` and keeps the fields. |
| MatchingForm.MatchingFormPage.OnSubmit | src/modules/matching/MatchingFormPage.tsx:121-159 | The call is update for `Number(id)` in edit mode and create otherwise, with the payload. Success navigates to `/matching`. Failure shows the message. Loading ends false. |
| CalendarForm.ValidateDates | src/modules/calendar/CalendarFormPage.tsx:55-58 | True when either date is empty. Otherwise true exactly when the end is not before the start. An unparseable date compares false. |
| CalendarForm.SameDayAllowed | src/modules/calendar/CalendarFormPage.tsx:57 | The same day passes. |
| CalendarForm.ExactlyOneOrder | src/modules/calendar/CalendarFormPage.tsx:57 | For two distinct valid dates, exactly one order passes. |
| CalendarForm.LoadedValues | src/modules/calendar/CalendarFormPage.tsx:43-47 | Null English name and description load as `''`. |
| CalendarForm.CalendarFormPage.constructor | src/modules/calendar/CalendarFormPage.tsx:16-33 | Defaults, no error, not loading. |
| CalendarForm.CalendarFormPage.OnLoaded | src/modules/calendar/CalendarFormPage.tsx:37-53 | Success sets the fields. Failure shows the message. |
| CalendarForm.CalendarFormPage.OnSubmit | src/modules/calendar/CalendarFormPage.tsx:60-89 | The date-order error comes first. Then a missing or all-whitespace Korean name is refused. Either refusal makes no call. Otherwise update in edit mode or create. Navigation happens only on success, and loading ends false on every path. |
| CalendarForm.BlankNameRefused | src/modules/calendar/CalendarFormPage.tsx:71-75 | A name of spaces is refused with `'행사명(한글)을 입력해주세요.'` and no call. |
| CalendarList.InsertByStart | src/modules/calendar/CalendarListPage.tsx:21-23 | An insertion step of the sort: the same events plus one. |
| CalendarList.InsertKeepsNewestFirst | src/modules/calendar/CalendarListPage.tsx:21-23 | Insertion keeps a newest-first list newest first. |
| CalendarList.SortNewestFirst | src/modules/calendar/CalendarListPage.tsx:21-23 | The sorted copy is a permutation of the fetched events and is non-increasing by start time. |
| CalendarList.SortKeepsSorted | src/modules/calendar/CalendarListPage.tsx:21-23 | An already newest-first list is shown exactly as fetched. |
| CalendarList.InsertOldest | src/modules/calendar/CalendarListPage.tsx:21-23 | An event no later than all others goes last. |
| CalendarList.FirstIsNewest | src/modules/calendar/CalendarListPage.tsx:21-23 | The first shown event starts no earlier than any fetched one. |
| CalendarList.CalendarListPage.constructor | src/modules/calendar/CalendarListPage.tsx:10-12 | Empty list, no error, not loading. |
| CalendarList.CalendarListPage.FetchEvents | src/modules/calendar/CalendarListPage.tsx:15-30 | Success shows the sorted copy. Failure sets the message and keeps the list. Loading ends false. The list stays newest first. |
| CalendarList.CalendarListPage.HandleDelete | src/modules/calendar/CalendarListPage.tsx:36-47 | Nothing happens unless the user confirms. A successful delete refetches. A failed delete alerts and leaves the list, the error and loading alone. |
| PledgeProgress.GetCompleted | src/modules/pledge/PledgeProgressPage.tsx:38 | True exactly when the entry exists and is `true`; a missing entry is false. |
| PledgeProgress.CountCompleted | src/modules/pledge/PledgeProgressPage.tsx:81-82 | The completed pledges of a category are at most its pledges. |
| PledgeProgress.TotalPledges | src/modules/pledge/PledgeProgressPage.tsx:54 | `totalPledges`: the number of pledges over all categories. A definition; `CompletedAtMostTotal` bounds the count by it. |
| PledgeProgress.CompletedCount | src/modules/pledge/PledgeProgressPage.tsx:55-58 | `completedCount`: the completed pledges over all categories. A definition; `CompletedAtMostTotal`, `CountEndpoints` and `ToggleMovesCount` state its properties. |
| PledgeProgress.CompletedAtMostTotal | src/modules/pledge/PledgeProgressPage.tsx:54-58 | `completedCount <= totalPledges`. |
| PledgeProgress.CountEndpoints | src/modules/pledge/PledgeProgressPage.tsx:56 | No completed pledge counts 0; all completed counts them all. |
| PledgeProgress.Rate | src/modules/pledge/PledgeProgressPage.tsx:59 | 0 without pledges. |
| PledgeProgress.RateBounds | src/modules/pledge/PledgeProgressPage.tsx:59 | The rate is at most 100. It is 0 when none are completed and 100 when all are. It is within half a percent of the exact ratio. |
| PledgeProgress.CountAfterChange | src/modules/pledge/PledgeProgressPage.tsx:56 | Changing another pledge's entry leaves a count unchanged. |
| PledgeProgress.CountSplit | src/modules/pledge/PledgeProgressPage.tsx:56 | Counting over two lists adds up. |
| PledgeProgress.ToggleFlipsOnlyThatPledge | src/modules/pledge/PledgeProgressPage.tsx:41-45 | Applying the requested update flips that pledge and no other. |
| PledgeProgress.ToggleMovesCount | src/modules/pledge/PledgeProgressPage.tsx:41-58 | Applying it moves the completed count by one in the requested direction. |
| PledgeProgress.PledgeProgressPage.constructor | src/modules/pledge/PledgeProgressPage.tsx:8-11 | Empty map, loading, no error, nothing updating. |
| PledgeProgress.StatusOf | src/modules/pledge/PledgeProgressPage.tsx:20-22 | `err.response?.status`: the status of a rejection that carries a response. A definition, used by `FetchProgress`'s 404 branch. |
| PledgeProgress.PledgeProgressPage.FetchProgress | src/modules/pledge/PledgeProgressPage.tsx:13-32 | Success shows the server's map or `{}`. A 404 shows `{}` with no error. Other failures set the message and keep the map. Loading ends false. |
| PledgeProgress.PledgeProgressPage.HandleToggle | src/modules/pledge/PledgeProgressPage.tsx:40-52 | The request is the negation of the pledge's current completion. Success replaces the whole map with the server's map or `{}`. Failure keeps the map and sets the error. `updatingId` is cleared either way. |
| ActivityForm.CategoryOptions | src/modules/activities/ActivityFormPage.tsx:92 | The options are `CATEGORY_OPTIONS` value for value, label for label. |
| ActivityForm.OptionsOfferDefault | src/modules/activities/ActivityFormPage.tsx:16-19 | Two distinct categories, the default first. |
| ActivityForm.LoadedValues | src/modules/activities/ActivityFormPage.tsx:54-61 | Null optional fields load as `''`. |
| ActivityForm.FormCopy | src/modules/activities/ActivityFormPage.tsx:75 | `{ ...data }`: the registered fields as strings, the unregistered ones undefined. |
| ActivityForm.KeepsThumbnail | src/modules/activities/ActivityFormPage.tsx:76 | `isEdit && !thumbnailFile && existingThumbnailUrl`. A definition; `SubmittedPayload` states its effect. |
| ActivityForm.SubmittedPayload | src/modules/activities/ActivityFormPage.tsx:75-78 | The copy, with `thumbnailUrl` set to the stored URL exactly when editing with no new file and a stored URL. |
| ActivityForm.KeptThumbnailIsSent | src/modules/activities/ActivityFormPage.tsx:76-80 | Such an edit sends the stored URL in the update body and no file. |
| ActivityForm.NewFileReplacesThumbnail | src/modules/activities/ActivityFormPage.tsx:76-80 | With a new file, no `thumbnailUrl` is sent and the file is the last entry. |
| ActivityForm.CreateSendsNoThumbnailUrl | src/modules/activities/ActivityFormPage.tsx:76-82 | Create never sends a `thumbnailUrl`. |
| ActivityForm.ActivityFormPage.constructor | src/modules/activities/ActivityFormPage.tsx:25-47 | Defaults, no file, no preview, no stored thumbnail. |
| ActivityForm.ActivityFormPage.OnLoaded | src/modules/activities/ActivityFormPage.tsx:49-69 | Success sets the fields. A truthy thumbnail URL is remembered and shown under the API base URL. Failure shows the message. |
| ActivityForm.ActivityFormPage.OnFileChange | src/modules/activities/ActivityFormPage.tsx:157-160 | Clearing the picker clears the preview but not the stored thumbnail URL. |
| ActivityForm.ActivityFormPage.OnSubmit | src/modules/activities/ActivityFormPage.tsx:71-90 | The call is update or create with the submitted payload and the file (`?? undefined`). Success navigates to `/activities`. Loading ends false. |
| ActivityForm.ClearedPickerKeepsThumbnail | src/modules/activities/ActivityFormPage.tsx:76-160 | Picking and then clearing a file in an edit still sends the stored thumbnail URL. |
| GalleryForm.LoadedValues | src/modules/gallery/GalleryFormPage.tsx:44-47 | Null description, photographer and category load as `''`. |
| GalleryForm.AsRequest | src/modules/gallery/GalleryFormPage.tsx:58 | The form values as the request: every field a string. |
| GalleryForm.NullFieldsStayUnsent | src/modules/gallery/GalleryFormPage.tsx:44-58 | A description loaded as null is not sent on update. |
| GalleryForm.GalleryFormPage.constructor | src/modules/gallery/GalleryFormPage.tsx:19-36 | Defaults, no file, no preview. |
| GalleryForm.GalleryFormPage.OnLoaded | src/modules/gallery/GalleryFormPage.tsx:38-56 | Success sets the fields, and a stored image becomes the preview. Failure shows the message. |
| GalleryForm.GalleryFormPage.OnFileChange | src/modules/gallery/GalleryFormPage.tsx:137-156 | The file is kept. Clearing it in create mode clears the preview. |
| GalleryForm.GalleryFormPage.OnSubmit | src/modules/gallery/GalleryFormPage.tsx:58-86 | Create without an image is refused with `'이미지 파일을 선택해주세요.'` and no call. Create with an image sends it. Update sends the image if there is one. Navigation to `/gallery` happens only on success, and loading ends false on every path. |
| GalleryForm.ClearedImageRefused | src/modules/gallery/GalleryFormPage.tsx:63-67 | A create whose image was picked and then cleared is refused without a call. |

## Left out

- HTTP transport: axios itself, its `Content-Type` headers, base-URL joining and the response bodies of successful calls. Each call's outcome is a parameter.
- The one-call wrappers in `src/api/auth.ts`, `src/api/matching.ts`, `src/api/calendar.ts` and `src/api/pledge.ts` are folded into their callers. A submit returns which call it makes and with what. `verifyToken`'s "any error is false" is part of `AuthProvider.VerifyToken`. The other wrappers of `src/api/resources.ts`, such as `getAllFilesByCategory`, `getFileById`, `deleteFile` and `getStats`, carry no logic.
- Concurrency: each handler runs to completion when its call settles. `CalendarList.CalendarListPage.HandleDelete` runs the un-awaited refetch as if it settled at once. Interleavings of two in-flight calls are not modelled.
- `FileReader` contents: the data URL is a parameter. `fileInputRef.current` is taken to be mounted.
- `new URL`, `new Date` and `Number` are parameters or partial interpretations. `Number` of text that is not a digit string (signs, decimals, padding) is kept uninterpreted, and so is `Number` of a route id.
- `trim()` removes ECMAScript's WhiteSpace and LineTerminator characters, with the space separators (Zs) taken from the current Unicode list; a later Unicode revision that adds a Zs character is not followed.
- PledgeProgress.Rate: `Math.round((c / t) * 100)` is computed in integers with halves rounded up. Only the bounds, the endpoints and the half-percent bracket are claimed, because floating-point ties may round differently.
- CalendarList.SortNewestFirst: the order it gives events with equal start times is not stated. Dates that `new Date` cannot parse (NaN comparisons) are not modelled; `timeOf` is total.
- The pledge categories come from a data file that is not part of this model. They are a parameter.
- `formatDate`, `formatFileSize`, the list pages, `ResourceUploadPage.tsx`, `NoticeFormPage.tsx`, `LoginPage.tsx`, `Layout.tsx`, `App.tsx` and `Alert.tsx`: locale output, rendering and form wiring with no rules of their own.
- The field-level form rules (`required` and the date `validate` rule at `src/modules/calendar/CalendarFormPage.tsx:125-133`): submit is modelled on the values that reach `onSubmit`.
- The gallery picker's re-fetch after clearing the file in edit mode (`src/modules/gallery/GalleryFormPage.tsx:141-151`) is an asynchronous side path. The preview is left as it was.
- Navigation is the route last passed to `navigate`. Alerts are a list of messages.
