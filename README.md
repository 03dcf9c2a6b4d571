# Smart classroom front-end: course loading and credentials

This project models the core of a mobile web front-end that shows a recorded classroom session
and asks a backend for an AI summary of it. The model covers:

- **Course store** (`Course`). `fetchCourseData` first tries the cached credential. When the
  backend has no record, or a call is rejected, it re-authenticates through the host's native
  bridge and fetches again. `updateCourseData` copies a record into the store's refs.
  `generateCourseSummary` requests a summary.
- **Backend wrappers** (`CourseApi`, `SummaryApi`, `Http`). They build the POST bodies of
  `/getCourse` and `/generateSummary`, check the `{code, msg, data}` envelope and rename the
  fields of `data`. Both wrappers turn every failure into `undefined`.
- **Credential store and login** (`Rpc`, `Jwt`). `saveLocalToken` and `getLocalToken` use
  the bridge's storage under `smartclass.token`. `getToken` drives the single-sign-on login
  script and pulls the first JWT-shaped substring out of the decoded cookies. That substring
  matches `/(eyJ[a-zA-Z0-9_-]+.[a-zA-Z0-9_-]+.[a-zA-Z0-9_-]+)/`. The model follows the
  pattern's leftmost, greedy, backtracking search. The pattern has no `u` flag, so it runs
  over UTF-16 code units, and `.` cannot take a character above U+FFFF whole.
- **Configuration** (`Config`). `getConfigValue`, the development-mode base URL and
  `parseInt` of the timeout.
- **Course page UI store** (`CourseUi`): the active tab, the function-area toggle and the copy
  flag.

How the model is built:

- JavaScript values are the datatype `JsValue.Value`.
- An awaited call settles to `Wrappers.Outcome`, `Resolved(v)` or `Rejected`.
- Each collaborator is a function parameter (an oracle). This covers the HTTP layer (`post`),
  the bridge's answers, `encodeURIComponent`/`decodeURIComponent`, and the store's calls to
  `getLocalToken`, `getToken`, `getCourse` and `generateSummary`. `getToken` and `getCourse`
  are told how many calls to them came before, so each call can settle differently.
- Each stateful store is a class whose methods are proved equal to a value-level function:
  - `Course.FetchFlow` specifies `fetchCourseData`.
  - `Rpc.LoginFlow`, `StoredToken` and `SavedToken` specify the bridge-backed methods.
  - `CourseUi`'s `SwitchedTo`, `Toggled` and `WithCopyStatus` specify the UI store's methods.
- The lemmas state the properties of those functions.

Two behaviours of the code are worth stating outright:

- **Re-authentications per load.** A rejection of the `getToken` at `src/stores/course.ts:32`,
  or of the retry at line 33, lands in the inner `catch`, which calls `getToken` again
  (line 36). So a load can make two re-authentications and three `getCourse` calls.
  `Course.FetchCallBounds` states exactly when this happens. `Course.SingleReauthentication`
  states when there is at most one re-authentication.
- **Missing local token.** `getLocalToken` passes on whatever `storage.get` answers, and the
  store sends it to `getCourse` unchanged. The model takes that answer to be `undefined` for
  a key that was never set (`Rpc.StoredToken`).

## Model

| member | source | states |
|---|---|---|
| Http.SuccessData | src/api/getCourse.ts:56-58 | The envelope check accepts a response exactly when it is an object with both `code` and `data`, `code` is strictly the number 200 and `data` is truthy. The value it yields is that `data`, which is not nullish. |
| CourseApi.CourseRequest | src/api/getCourse.ts:48-55 | `getCourse` posts to `/getCourse` a body with exactly the keys `course_name`, `date` and `token`, holding the three arguments. |
| CourseApi.CourseRequestInjective | src/api/getCourse.ts:48-52 | Equal requests come only from equal arguments, so nothing is lost or swapped in the body. |
| CourseApi.GetCourse | src/api/getCourse.ts:41-79 | `getCourse` returns a record exactly when the post resolves to a success envelope whose `data.summary` is not nullish. A rejected post, a failed envelope check and the TypeError of reading `data.summary.data` all give `undefined`. |
| CourseApi.MapCourse | src/api/getCourse.ts:59-71 | Defines the object literal built from `data`: the field renaming, with `course_id` dropped. It rejects with a TypeError when `data.summary` is nullish. |
| CourseApi.MapCourseRoundTrip | src/api/getCourse.ts:59-71 | For every `data` object that carries a record, whatever other keys it and its `summary` hold (`course_id` among them), the renaming takes back exactly that record. |
| CourseApi.GetCourseRoundTrip | src/api/getCourse.ts:41-79 | For every record the backend encodes in a success response, `getCourse` returns exactly that record. This holds whatever `msg` and other envelope keys the response carries, and whatever else `data` holds. |
| SummaryApi.SummaryRequest | src/api/generateSummary.ts:21-28 | `generateSummary` posts to `/generateSummary` a body with exactly the keys `sub_id`, `token` and `task`, holding its arguments. |
| SummaryApi.SummaryRequestInjective | src/api/generateSummary.ts:21-25 | Equal summary requests come only from equal arguments. |
| SummaryApi.GenerateSummary | src/api/generateSummary.ts:18-43 | `generateSummary` returns a result exactly for a success envelope, and the result is `data.sub_id` and `data.summary_status`. A rejected post gives `undefined`. |
| SummaryApi.GenerateSummaryRoundTrip | src/api/generateSummary.ts:29-36 | For every success response, whatever `msg` and other keys it and its `data` carry, the `sub_id`/`summary_status` renaming gives back exactly what the backend encoded. |
| Jwt.RunEnd | src/api/rpc.ts:46 | The greedy run of `[a-zA-Z0-9_-]` stays in bounds, covers only word characters and stops at the end or at a non-word character. |
| Jwt.Seg | src/api/rpc.ts:46 | Defines the engine's search for `W+ (. W+){n}` at a position, greedy first. A successful match ends after its start, in bounds, and at the end of the input or before a non-word character. |
| Jwt.Backtrack | src/api/rpc.ts:46 | Defines how a greedy run gives characters back one at a time until `.` and the remaining segments match. A match it finds ends in bounds, at the end or before a non-word character. |
| Jwt.MatchAt | src/api/rpc.ts:46 | Defines the match attempt at one start: `eyJ` and then two more segments. A match ends more than three characters after its start. |
| Jwt.FirstMatchFrom | src/api/rpc.ts:46 | Defines the scan over start positions from left to right. A match it returns lies in bounds and ends at the end or before a non-word character. |
| Jwt.ExtractToken | src/api/rpc.ts:46-47 | Defines `tokenMatch ? tokenMatch[1] : ''`: the whole first match, or `''`. Its properties are `Jwt.ExtractTokenEmpty`, `Jwt.ExtractTokenFound` and `Jwt.ExtractTokenInBmp`. |
| Jwt.SegSound | src/api/rpc.ts:46 | The backtracking search for `W+ (. W+){n}` (W = `[a-zA-Z0-9_-]`) only succeeds on a substring of that language. |
| Jwt.BacktrackSound | src/api/rpc.ts:46 | Giving characters of a greedy run back one at a time only yields matches of the language. |
| Jwt.SegComplete | src/api/rpc.ts:46 | When some substring at the position is in that language, the backtracking search succeeds there. |
| Jwt.MatchAtSpec | src/api/rpc.ts:46 | A match at a start position is JWT-shaped (`eyJ` and three segments). When there is no match at that start, no substring beginning there is JWT-shaped. |
| Jwt.FirstMatchFromSpec | src/api/rpc.ts:46 | The search returns the leftmost start at which a JWT-shaped substring exists, and no earlier start has one. |
| Jwt.ExtractTokenEmpty | src/api/rpc.ts:46-47 | The extracted token is `''` exactly when no substring of the decoded cookies is JWT-shaped. |
| Jwt.ExtractTokenFound | src/api/rpc.ts:46-47 | A non-empty token is a JWT-shaped substring of the cookies that starts with `eyJ` and starts leftmost. It ends at the end of the cookies or before a non-word character, as greedy matching gives. |
| Jwt.SegmentsInBmp | src/api/rpc.ts:46 | Every character of a match of the segments is a single UTF-16 code unit, because the pattern runs without the `u` flag. |
| Jwt.ExtractTokenInBmp | src/api/rpc.ts:46-47 | An extracted token never contains a character above U+FFFF. |
| Jwt.AstralCharacterStopsMatch | src/api/rpc.ts:46-47 | From `eyJa😀b.c` the token is `''`. `.` can take only the first half of the emoji's surrogate pair, and no word run starts at the second half. |
| Rpc.RedirectUrl | src/api/rpc.ts:25-29 | Defines `redirect_url`: the portal entry point, with the encoded classroom site and `auth/login` route and tenant 223 as parameters, all encoded once more. |
| Rpc.RedirectUrlLogin | src/api/rpc.ts:30-32 | Defines `redirect_url_login`: the same entry point with its parameters written out unencoded, encoded once. |
| Rpc.LoginRequest | src/api/rpc.ts:35-44 | Defines the `spider.run` arguments: the login script, `newContext: false`, the session parameters and the two redirect URLs. |
| Rpc.StoredToken | src/api/rpc.ts:68-78 | Defines what `getLocalToken` settles to: a rejection when storage is unavailable, else the stored string or `undefined`. |
| Rpc.SavedToken | src/api/rpc.ts:56-66 | Defines the storage after `saveLocalToken`: the token under `smartclass.token` when storage is available, else unchanged. |
| Rpc.LoginFlow | src/api/rpc.ts:23-54 | Defines the bridge calls `getToken` makes and how it settles. Its properties are the three `Rpc.Login…` lemmas. |
| Rpc.SaveThenGet | src/api/rpc.ts:56-78 | After a successful `saveLocalToken(t)`, `getLocalToken` gives back exactly `t`, and every other storage key is untouched. |
| Rpc.LoginPassesSessionParameters | src/api/rpc.ts:34-44 | Every `spider.run` call is made after `spider.getulpl` resolved. It runs `smart_timetable_login_home` with `newContext: false` and the `ul`/`pl` that `spider.getulpl` answered. |
| Rpc.LoginSavesBeforeReturning | src/api/rpc.ts:46-49 | A resolved `getToken` returned the token extracted from the decoded cookies. Its last bridge call wrote that same token under `smartclass.token`, and the token is `''` or JWT-shaped. |
| Rpc.LoginFailsWithoutRetry | src/api/rpc.ts:23-54 | `getToken` rejects exactly when `spider.getulpl`, `spider.run`, the URI decoding or the `storage.set` rejects. It calls `spider.getulpl` once, first, and makes at most three bridge calls. |
| Rpc.NativeHost.SaveLocalToken | src/api/rpc.ts:56-66 | Makes one `storage.set` of `smartclass.token`. It resolves exactly when the storage is available, and only then is the token stored. |
| Rpc.NativeHost.GetLocalToken | src/api/rpc.ts:68-78 | Makes one `storage.get` of `smartclass.token` and changes nothing. It rejects when the storage is unavailable, else answers the stored string or `undefined`. |
| Rpc.NativeHost.GetToken | src/api/rpc.ts:23-54 | The bridge calls and the outcome are those of `LoginFlow`. The storage holds the returned token exactly when the call resolved, and is unchanged otherwise. |
| Config.ConfigValue | src/config/index.ts:7-9 | The result is the variable when it is set and non-empty, else the default when one is given and non-empty, else `''`. It is `''` exactly when neither is. |
| Config.IsDev | src/config/index.ts:18 | Defines development mode: `MODE` is set to exactly `development`. |
| Config.BaseUrl | src/config/index.ts:18-22 | The base URL is `/api` in development mode, otherwise `VITE_API_BASE_URL`, or `''` when that is unset. |
| Config.ParseInt | src/config/index.ts:23 | Defines `parseInt(s, 10)`: leading white space, an optional sign and the longest digit run, with NaN as None. Its properties are `Config.ParseIntDigits` and `Config.ParseIntNaN`. |
| Config.Timeout | src/config/index.ts:23 | Defines the timeout as `parseInt` of `VITE_API_TIMEOUT`, or of `10000` when that is unset or empty. Its properties are `Config.DefaultTimeout` and `Config.ConfiguredTimeout`. |
| Config.DigitPrefix | src/config/index.ts:23 | The digits `parseInt` consumes are the longest prefix made only of decimal digits. |
| Config.TrimStart | src/config/index.ts:23 | `parseInt` skips exactly the leading JavaScript white space and line terminators. The result is a suffix of the input, every removed character is white space, and the result does not start with white space. |
| Config.ParseIntDigits | src/config/index.ts:23 | `parseInt` of a non-empty string of digits is their decimal value. |
| Config.ParseIntNaN | src/config/index.ts:23 | `parseInt` gives NaN exactly when no digit follows the leading white space and an optional sign. |
| Config.DefaultTimeout | src/config/index.ts:23 | With `VITE_API_TIMEOUT` unset or empty, the timeout is 10000. |
| Config.ConfiguredTimeout | src/config/index.ts:23 | With `VITE_API_TIMEOUT` set to digits, the timeout is their decimal value. |
| CourseUi.SwitchedTo | src/stores/course-ui.ts:9-11 | Defines `switchTab` on the state: the tab is replaced. Its properties are `CourseUi.SwitchTabLastWins`. |
| CourseUi.Toggled | src/stores/course-ui.ts:13-15 | Defines `toggleFunctionArea` on the state: the flag is negated. Its properties are `CourseUi.ToggleInvolutive`. |
| CourseUi.WithCopyStatus | src/stores/course-ui.ts:17-19 | Defines `setCopyStatus` on the state: the flag is replaced. Its properties are `CourseUi.SetCopyStatusIdempotent`. |
| CourseUi.ToggleInvolutive | src/stores/course-ui.ts:13-15 | Toggling the function area always changes the state, toggling twice restores it, and the tab and copy flag never move. |
| CourseUi.SetCopyStatusIdempotent | src/stores/course-ui.ts:17-19 | Setting the copy status sets exactly that flag, and repeating the call changes nothing. |
| CourseUi.SwitchTabLastWins | src/stores/course-ui.ts:9-11 | Switching tabs sets the tab, and of two switches the last one wins. |
| CourseUi.CourseUiStore.constructor | src/stores/course-ui.ts:5-7 | A fresh UI store shows the `info` tab, with the function area collapsed and the copy flag off. |
| CourseUi.CourseUiStore.SwitchTab | src/stores/course-ui.ts:9-11 | The new state is the old one with the given tab. |
| CourseUi.CourseUiStore.ToggleFunctionArea | src/stores/course-ui.ts:13-15 | The new state is the old one with the function area flipped. |
| CourseUi.CourseUiStore.SetCopyStatus | src/stores/course-ui.ts:17-19 | The new state is the old one with the given copy flag. |
| Course.ApiCourse | src/api/getCourse.ts:41-79 | Defines the store's `getCourse` collaborator as the API wrapper over a `post` oracle per call. The wrapper catches every rejection, so this collaborator always resolves. |
| Course.ApiCourseLoad | src/stores/course.ts:29-42 | With the real `getCourse`, whatever the backend answers, a load makes at most two `getCourse` calls. It makes a second `getToken` exactly when the first answer is `undefined` and the `getToken` of line 32 rejects. |
| Course.CountsAppend | src/stores/course.ts:24-52 | Counting re-authentications and course fetches distributes over concatenating call logs. |
| Course.FetchFlow | src/stores/course.ts:24-52 | Defines the calls, the record obtained and the completion of one `fetchCourseData`, following its nested `try`/`catch`. Its properties are the lemmas below. |
| Course.Recover | src/stores/course.ts:35-41 | Defines the inner `catch`: one more `getToken`, then one `getCourse` with its token. A rejected retry leaves no record, and a rejected `getToken` escapes. |
| Course.LocalTokenAccepted | src/stores/course.ts:26-31 | When the first `getCourse` with the cached token returns a record, the flow makes exactly that one call, never calls `getToken`, keeps the record and completes. |
| Course.RetryAfterAbsent | src/stores/course.ts:31-34 | When the first `getCourse` is `undefined` and lines 32-33 resolve, there is one `getToken` and one retry with the new token. The retry's answer is final, even when it is `undefined`. |
| Course.RetryAfterRejection | src/stores/course.ts:35-41 | When the first `getCourse` rejects, one `getToken` follows, and then one `getCourse` with its token if it resolves. A rejected retry is logged and leaves no record. A rejected `getToken` abandons the flow. |
| Course.FetchCallBounds | src/stores/course.ts:24-52 | Every load makes at most two `getToken` and three `getCourse` calls. The second `getToken` happens exactly when line 32 or 33 rejects. The third `getCourse` happens exactly when, in addition, both re-authentications resolve. |
| Course.RecoverCounts | src/stores/course.ts:35-41 | The inner `catch` adds exactly one `getToken`, plus one `getCourse` when that resolves. |
| Course.FetchCompletion | src/stores/course.ts:44-51 | A load ends with `isLoading = false` exactly when `getLocalToken` resolves and the inner `catch`'s `getToken`, if reached, resolves. A load that does not complete obtains no record. |
| Course.NonRejectingFetches | src/stores/course.ts:29-42 | With a `getCourse` that never rejects (as the real one), a load makes at most two `getCourse` calls. It makes two `getToken` calls exactly when the first fetch is `undefined` and the `getToken` of line 32 rejects. |
| Course.SingleReauthentication | src/stores/course.ts:29-42 | When neither `getCourse` nor `getToken` rejects, a load makes at most one re-authentication and at most two fetches. It completes exactly when the cached token is read, and keeps the first record obtained. |
| Course.Committed | src/stores/course.ts:54-65 | Defines `updateCourseData` on values: every course field is taken from the record except `courseName`. |
| Course.Settled | src/stores/course.ts:44-46 | Defines the course fields after a load: committed when a record was obtained, else unchanged. |
| Course.CommitKeepsName | src/stores/course.ts:54-65 | `updateCourseData` keeps the displayed course name and takes every other field from the record. Applying the same record twice changes nothing more. |
| Course.CourseStore.constructor | src/stores/course.ts:9-22 | A fresh store has `subID` undefined, every other course ref `''`, `isLoading` true and `isVideoLoaded` false. |
| Course.CourseStore.UpdateCourseData | src/stores/course.ts:54-65 | The ten refs other than `courseName` take the record's values. `courseName` and the loading flags are unchanged. |
| Course.CourseStore.FetchCourseData | src/stores/course.ts:24-52 | The calls are `FetchFlow`'s. The course refs are committed only when a record was obtained. `isLoading` becomes false exactly when the flow completes, and `isVideoLoaded` is untouched. |
| Course.CourseStore.GenerateCourseSummary | src/stores/course.ts:67-79 | The summary is requested with the freshly read cached token and the current `subID`, and `getToken` is never called. The status becomes `generating`, or the result's status when there is a result. A rejection of either call leaves it unchanged. |

## Left out

- The HTTP layer (`src/utils/request.ts`, axios and its base URL wiring) is the `post` oracle. `config.api.timeout` is computed (modelled as `Config.Timeout`), but no request reads it. The `errorMessage` ref passed to `post` is not modelled.
- The native bridge library is not part of this model. Its answers are parameters: the `ul`/`pl` pair, the cookies for a request, and storage that is either available or not. Its answers are assumed to have the declared shapes (`{ul, pl}`, `{cookies}`, `{value}`).
- `encodeURIComponent` and `decodeURIComponent` are left opaque. Decoding may reject, as its URIError does.
- The `app.info` call at module load of `src/api/rpc.ts` and all console logging are output only, and are not modelled.
- Concurrency between overlapping `fetchCourseData` calls, and Vue/Pinia reactivity, are not modelled. Each method runs to completion on the store.
- Numbers are mathematical reals. NaN, infinities and floating-point rounding are not modelled. The backend's `code` is compared with 200 exactly.
- Arrays are modelled as objects, and the prototype chain is not modelled. So `'code' in response` sees own properties only, and reading an inherited property gives `undefined`.
- Strings are sequences of Unicode scalar values, so a lone surrogate code unit in the cookies cannot be expressed. `decodeURIComponent` never produces one from an escape, but it passes a literal one through.
- Config.ParseInt: the result is an unbounded integer. Precision loss beyond 2^53 and `-0` are not modelled.
- The view components, router, clipboard helper and `isVideoLoaded` handling outside the store are glue, and are not modelled.
