# RAG Lite front-end, modelled in Dafny

This project models the logic of the RAG Lite single-page front-end. The application is a React client for a retrieval-augmented chat backend. The model covers:

- the chat stream's line reader;
- the two session-expiry mechanisms (the auth event bus with its redirect handler, and the HTTP client's interceptors);
- the token helpers over browser storage;
- the knowledge-base and auth stores;
- the decisions made inside the components: the route guard, the upload dialog, the document table, the knowledge-base form dialog, the chat page, the settings page and the header.

The browser and the network are parameters:

- storage is a `map<string, string>`;
- `Date.now()` is a `now` argument;
- server replies are `Settled` values (`Resolved(body)` or `Rejected(message)`);
- `JSON.parse`, `JSON.stringify`, `atob`, UTF-8 decoding, `TextDecoder` and `encodeURIComponent` are functions of a `Host` value;
- timers are a `TimerQueue` of armed tasks.

Code that changes state step by step is written as classes whose methods update their fields:

- the stream reader's loop;
- the event bus and the expiry handler;
- token storage;
- the stores;
- the component state.

Each such method's new state is given by a pure transition function, and the lemmas state the properties of those functions.

JavaScript values are the `JsValue.Value` datatype, with truthiness, `||`, `===`, property reads, `String()`, `ToNumber` and object spread written out. Numbers are integers.

Files, one module each:

- Shared helpers:
  - `wrappers.dfy`: the `Option` datatype.
  - `strings.dfy`: the string operations the program uses.
  - `js_value.dfy`: JavaScript values.
  - `js_number.dfy`: what `ToNumber` makes of the program's texts and values.
  - `foreign.dfy`: the host functions.
  - `timers.dfy`: the timer queue.
  - `redirects.dfy`: the login redirect target.
- The program, one file per source file:
  - `stream_reader.dfy`
  - `auth_events.dfy`
  - `api_client.dfy`
  - `token.dfy`
  - `kb_store.dfy`
  - `auth_store.dfy`
  - `auth_guard.dfy`
  - `upload_modal.dfy`
  - `kb_detail.dfy`
  - `kb_form_modal.dfy`
  - `chat_page.dfy`
  - `settings_page.dfy`
  - `header.dfy`

## Model

| member | source | states |
|---|---|---|
| Strings.TrimStart | src/api/chat.js:48 | drops exactly the leading JavaScript white space: the result is a suffix, what was dropped is all white space, and the result does not start with white space |
| Strings.TrimEnd | src/api/chat.js:48 | drops exactly the trailing white space, symmetrically |
| Strings.TrimEmptyIffBlank | src/api/chat.js:48 | `trim()` gives the empty (falsy) string exactly when the line is all white space, which is the filter the reader applies |
| Strings.TrimmedEnds | src/pages/Chat/index.jsx:67 | a trimmed string starts and ends with a non-blank character and is no longer than the original |
| Strings.OccurrenceIsContained | src/api/index.js:81-82 | `includes` finds every occurrence of the substring, at any position |
| Strings.Split | src/api/chat.js:48 | `split` always yields at least one piece |
| Strings.SplitWithoutSep | src/api/chat.js:48 | a text without the separator splits into itself, and with one trailing separator into itself and an empty piece |
| Strings.JoinSplit | src/api/chat.js:48 | joining the pieces of a split with the separator gives back the text |
| Strings.SplitPiecesFree | src/api/chat.js:48 | no piece of a split contains the separator |
| Strings.LastPiece | src/components/DocumentUploadModal.jsx:97 | the last piece of a split is the text after the last separator, and the whole text when there is none |
| Strings.ToLowerAscii | src/components/DocumentUploadModal.jsx:97 | lower-casing keeps the length and maps exactly the letters A-Z to a-z |
| Strings.NatToString | src/utils/token.js:37 | `toString()` of a natural is a nonempty run of decimal digits without a leading zero |
| Strings.DigitPrefix | src/utils/token.js:161 | the longest prefix of decimal digits |
| Strings.ParseInt | src/utils/token.js:161 | `parseInt` fails exactly when no digit follows the leading white space and optional sign |
| Strings.ParseIntOfNatToString | src/utils/token.js:161 | `parseInt` reads back what `toString()` wrote: the round trip behind the last-verify stamp |
| JsValue.Or | src/api/index.js:103 | `a \|\| b` is `a` when it is truthy and `b` otherwise |
| JsValue.Get | src/api/index.js:88 | a property read gives `undefined` unless the value is an object that has the property |
| JsValue.Spread | src/store/useKbStore.js:99 | `{...a, ...b}` holds every property of `b`, and the properties of `a` that `b` lacks |
| JsValue.StringToNumber | src/utils/token.js:136 | `ToNumber` of a blank string is 0 |
| JsValue.ToNumber | src/utils/token.js:136 | `exp * 1000` converts a number to itself, a string by its text, and an object or array by the text `String()` gives it |
| JsNumber.NaturalText | src/utils/token.js:136 | the text `String(m)` writes for a natural number converts back to `m` |
| JsNumber.NegativeText | src/utils/token.js:136 | the text of a negative number converts back to it |
| JsNumber.SignedDigitsToNumber | src/utils/token.js:136 | a decimal numeral with an optional minus sign converts to its value |
| JsNumber.NumericStringIsItsNumber | src/pages/Knowledgebase/Detail.jsx:445 | a numeric string converts to its number, so `"5" > 0` holds and `"0" > 0` does not |
| JsNumber.SingletonArrayIsItsItem | src/utils/token.js:136 | a one-element array `[m]` converts to `m` |
| JsNumber.ObjectIsNaN | src/utils/token.js:136 | a plain object converts to `NaN` |
| JsNumber.NonNumericText | src/utils/token.js:136 | a text starting with neither a digit, a sign nor `I` converts to `NaN` |
| JsNumber.FalsyIsNotPositive | src/pages/Knowledgebase/Detail.jsx:445 | no falsy value passes `v > 0` |
| Redirects.LoginHref | src/api/index.js:37-42 | the target is bare `/login` exactly when the current path is the string `/login`, and otherwise `/login?redirect=` plus the encoded path |
| StreamReader.NonBlankNotBlank | src/api/chat.js:48 | no line that survives the filter is blank |
| StreamReader.NonBlankKeepsTrimmed | src/api/chat.js:48 | every kept line trims to a nonempty string |
| StreamReader.ChunkGroups | src/api/chat.js:47-48 | each chunk is decoded and split on its own: one group of lines per chunk |
| StreamReader.HandleLine | src/api/chat.js:50-64 | one line's callbacks and whether the reader stops, as the per-line specification gives them |
| StreamReader.LineStepShape | src/api/chat.js:50-64 | one line yields only fragments unless it stops the reader, and a line that stops it ends with one outcome |
| StreamReader.Read | src/api/chat.js:24-72 | the read loop's callback log equals `Run`, the specification over all chunks |
| StreamReader.StopAbsorbs | src/api/chat.js:53-56 | once a line has stopped the reader, no later line changes the log |
| StreamReader.RunLinesShape | src/api/chat.js:43-66 | until the reader stops, only `onMessage` calls are made; after it stops, the log is settled |
| StreamReader.RunSettles | src/api/chat.js:24-72 | every run ends with fragments and then one outcome, or, when `onComplete` throws, `onComplete` followed by `onError` |
| StreamReader.ExactlyOneOutcome | src/api/chat.js:24-72 | with an `onComplete` that does not throw, a run is fragments followed by exactly one of `onComplete` or `onError`, as the last call |
| StreamReader.CompleteThrowAlsoErrors | src/api/chat.js:68-71 | an `onComplete` that throws is followed by `onError` for the same run |
| StreamReader.StopIgnoresRest | src/api/chat.js:53-56 | after `[DONE]`, neither further chunks nor how the body ends make any difference |
| StreamReader.MessagesInOrder | src/api/chat.js:43-66 | without a sentinel and with callbacks that do not throw, the lines give one `onMessage` per `data: ` line, in line order |
| StreamReader.StreamInOrder | src/api/chat.js:43-68 | a stream read to its end delivers every fragment, in read order across chunks, and then calls `onComplete` once |
| StreamReader.MessagesFor | src/api/chat.js:57-63 | exactly one `onMessage` call per `data: ` payload |
| StreamReader.MalformedIsText | src/api/chat.js:57-63 | a payload that is not JSON is delivered as `{content: payload}` and does not reach `onError` |
| StreamReader.PrefixNeedsSpace | src/api/chat.js:51 | `data:[DONE]` without the space is ignored entirely |
| StreamReader.CarriageReturnHidesSentinel | src/api/chat.js:48-53 | a CRLF line `data: [DONE]\r` is not the sentinel and is delivered as text |
| StreamReader.SentinelSplitAcrossChunks | src/api/chat.js:47-56 | a sentinel split across two chunks is not recognised, because no line is carried between chunks |
| StreamReader.HalvesOfSentinel | src/api/chat.js:51-63 | the halves `data: [DO` and `NE]` give one text fragment and nothing else, and the reader goes on |
| StreamReader.SentinelInOneChunk | src/api/chat.js:53-56 | a first chunk holding the sentinel line completes the stream, whatever follows |
| StreamReader.SentinelLine | src/api/chat.js:53-56 | the line `data: [DONE]` alone calls `onComplete` and stops the reader |
| AuthEvents.AddLast | src/utils/authEvents.js:28-31 | adding to a set keeps the members in insertion order, adds the callback once, and keeps the set free of duplicates |
| AuthEvents.Without | src/utils/authEvents.js:35 | deleting removes exactly that callback and keeps the rest |
| AuthEvents.WithoutAbsent | src/utils/authEvents.js:35 | deleting a callback that is not subscribed changes nothing |
| AuthEvents.WithoutLast | src/utils/authEvents.js:31-35 | deleting the most recently added callback gives back the set as it was before |
| AuthEvents.AddIsIdempotent | src/utils/authEvents.js:31 | subscribing the same callback twice stores it once |
| AuthEvents.SubscribeThenUnsubscribe | src/utils/authEvents.js:27-37 | the unsubscribe function undoes its own subscription exactly |
| AuthEvents.Registered | src/utils/authEvents.js:45-46 | an event nobody subscribed to has no callbacks |
| AuthEvents.PublishedData | src/utils/authEvents.js:44 | `data` defaults to `{}` and is never `undefined` |
| AuthEvents.EventBus.Subscribe | src/utils/authEvents.js:27-37 | the event's set gains the callback, created on first use; other events are untouched |
| AuthEvents.EventBus.Unsubscribe | src/utils/authEvents.js:34-36 | only that callback of only that event is removed; an unknown event is a no-op |
| AuthEvents.EventBus.Publish | src/utils/authEvents.js:44-55 | every current subscriber of the event is called once, in order, with the data; a throwing subscriber does not stop the rest |
| AuthEvents.RedirectDelay | src/utils/authEvents.js:82 | the delay is 0 exactly when `immediate` is truthy, and 500 otherwise |
| AuthEvents.RedirectTarget | src/utils/authEvents.js:89-93 | the redirect carries `returnUrl`, else the current path |
| AuthEvents.RedirectFromLoginPage | src/utils/authEvents.js:89-93 | from `/login` the redirect is bare `/login` |
| AuthEvents.SessionExpiredHandler.Handle | src/utils/authEvents.js:72-95 | a second `handle` is a no-op; the first one calls every registered subscriber of the session-expired event, in order, with `{returnUrl}` and each one's throw caught, and replaces any armed redirect with one new timer |
| AuthEvents.SessionExpiredHandler.Cancel | src/utils/authEvents.js:100-106 | the pending timer is cleared and the handler is idle; it is safe when idle |
| AuthEvents.SessionExpiredHandler.FireRedirect | src/utils/authEvents.js:88-94 | an armed redirect fires once, to its target |
| AuthEvents.SessionExpiredHandler.Reset | src/utils/authEvents.js:111-114 | the handler is idle again without clearing the timer |
| AuthEvents.ThreeExpiries | src/utils/authEvents.js:72-95 | with one subscriber, three `handle` calls in a row call it once with the first call's `returnUrl`, and leave armed exactly the first call's 500 ms redirect |
| AuthEvents.ResetStillRedirects | src/utils/authEvents.js:111-114 | a redirect armed before `reset` still fires |
| ApiClient.MessageOr | src/api/index.js:88 | the rejection message is the candidate when it is truthy, else the fallback |
| ApiClient.ClassifyError | src/api/index.js:77-105 | a 401 expires the session exactly when the URL is not a login or register endpoint; the messages for an auth-endpoint 401, an expiry, a 403 and every other error |
| ApiClient.LoginFailureDoesNotExpire | src/api/index.js:77-90 | a 401 from any URL containing `/auth/login` or `/auth/register`, the auth API's bare relative paths included, never triggers the expiry handling |
| ApiClient.OnlyUnauthorizedExpires | src/api/index.js:85-104 | no status other than 401 expires the session |
| ApiClient.Settle | src/api/index.js:72-105 | a reply resolves to its `data`, and a failure rejects with the classified message |
| ApiClient.RequestDecision | src/api/index.js:50-65 | no token: the request is sent unchanged; an expired token: it is refused; a live token: it is sent with `Authorization: Bearer <token>` added |
| ApiClient.ExpiredIsNeverSent | src/api/index.js:55-59 | a request is never sent with an expired token |
| ApiClient.Client.HandleAuthExpired | src/api/index.js:29-46 | while a redirect is pending nothing happens; otherwise the token is cleared and one 100 ms redirect is armed |
| ApiClient.Client.FireNavigation | src/api/index.js:41-45 | the navigation fires once and lowers the guard |
| ApiClient.Client.InterceptRequest | src/api/index.js:49-69 | the request follows `RequestDecision`, and a refusal runs the expiry handling |
| ApiClient.Client.InterceptResponse | src/api/index.js:72-106 | the result follows `Settle`, and only an expiring 401 runs the expiry handling |
| ApiClient.TwoUnauthorized | src/api/index.js:29-31 | two concurrent 401s arm a single redirect |
| Timers.TimerQueue.SetTimeout | src/utils/authEvents.js:88 | a fresh timer id is armed with the delay and the job |
| Timers.TimerQueue.ClearTimeout | src/utils/authEvents.js:85 | only that timer is disarmed |
| Timers.TimerQueue.Fire | src/utils/authEvents.js:88-94 | an armed timer runs its task once and is disarmed; an unknown id does nothing |
| Token.GetToken | src/utils/token.js:16-23 | the stored token unless it is missing, empty, `"undefined"` or `"null"` |
| Token.UrlToStandard | src/utils/token.js:107 | the translated segment has the same length and no `-` or `_` left |
| Token.AlphabetRoundTrip | src/utils/token.js:107 | the base64url-to-base64 translation loses nothing: the reverse translation restores the segment |
| Token.ParseJwt | src/utils/token.js:104-118 | a payload is found only in a token with at least two dot-separated segments |
| Token.ParseJwtReadsSecondSegment | src/utils/token.js:104-114 | the payload is the second segment, translated, base64-decoded, UTF-8-decoded and parsed; any failure gives `null` |
| Token.IsTokenExpired | src/utils/token.js:124-140 | without a token the session counts as expired |
| Token.StringClaimIsConverted | src/utils/token.js:129-139 | a string claim `"1"` is converted by `ToNumber`, so the token is expired from the epoch on |
| Token.UnreadableClaimNeverExpires | src/utils/token.js:129-139 | a truthy claim that converts to `NaN` never expires the token |
| Token.ExpiryIsMonotone | src/utils/token.js:124-140 | once expired, a token stays expired |
| Token.ExpiryBoundary | src/utils/token.js:129-139 | for any payload whose truthy `exp` converts to a number of seconds, the token is expired from exactly 60 s before that instant, in milliseconds, and not a millisecond earlier |
| Token.NeedsRevalidation | src/utils/token.js:149-163 | an expired token or a missing last-verify stamp always needs revalidation |
| Token.AfterSetToken | src/utils/token.js:29-38 | a nonempty string token is stored and the last-verify key reads back as `now`; anything else leaves storage unchanged; no other key changes |
| Token.AfterClearToken | src/utils/token.js:43-47 | exactly the token, user and last-verify keys are removed |
| Token.AfterMarkVerified | src/utils/token.js:168-170 | the last-verify key reads back as `now`; no other key changes |
| Token.AfterSetStoredUser | src/utils/token.js:78-89 | a truthy object is stored as its JSON; anything else changes nothing; no key but the user key changes |
| Token.StoredUser | src/utils/token.js:53-72 | the stored user is `null` or an object that parses from the stored text |
| Token.SetTokenThenGet | src/utils/token.js:16-38 | `getToken` returns what `setToken` stored, unless that is a sentinel string |
| Token.ClearLogsOut | src/utils/token.js:43-47 | after `clearToken` the session is unauthenticated, expired, due for revalidation and has no stored user |
| Token.ExpiryIgnoresLastVerify | src/utils/token.js:124-140 | expiry does not depend on the last-verify stamp |
| Token.MarkVerifiedOpensWindow | src/utils/token.js:149-170 | after `markVerified` at `t0`, revalidation is due exactly when the token has expired or 5 minutes have passed |
| Token.SetTokenOpensWindow | src/utils/token.js:29-38 | `setToken` also opens a fresh 5-minute window |
| Token.StoredUserRoundTrip | src/utils/token.js:53-89 | `getStoredUser` returns the object `setStoredUser` stored |
| Token.Storage.SetToken | src/utils/token.js:29-38 | storage becomes `AfterSetToken` of the old storage |
| Token.Storage.ClearToken | src/utils/token.js:43-47 | storage becomes `AfterClearToken` of the old storage |
| Token.Storage.MarkVerified | src/utils/token.js:168-170 | storage becomes `AfterMarkVerified` of the old storage |
| Token.Storage.GetStoredUser | src/utils/token.js:53-72 | returns `StoredUser`, and deletes the user key exactly when it fails to parse |
| Token.Storage.SetStoredUser | src/utils/token.js:78-89 | storage becomes `AfterSetStoredUser` of the old storage |
| KbStore.Default | src/store/useKbStore.js:23 | a default parameter replaces only `undefined` |
| KbStore.Payload | src/store/useKbStore.js:27 | `response.data \|\| response` |
| KbStore.ItemsOf | src/store/useKbStore.js:30 | the `items` array, or the empty list |
| KbStore.RemoveById | src/store/useKbStore.js:80-83 | filtering keeps exactly the entries whose id is not strictly equal to the given one |
| KbStore.MergeById | src/store/useKbStore.js:97-101 | entries with the id are spread with the reply, and the others stay in place |
| KbStore.Failure | src/store/useKbStore.js:38-41 | a failure lowers `loading`, records the message, and keeps every list |
| KbStore.AfterFetchKnowledgebases | src/store/useKbStore.js:23-42 | the list becomes the reply's items; page and page size fall back to the arguments, total to 0; a failure changes only the flags |
| KbStore.AfterFetchKnowledgebase | src/store/useKbStore.js:45-56 | `currentKb` becomes the payload, and nothing else changes |
| KbStore.AfterCreate | src/store/useKbStore.js:59-73 | the new knowledge base is prepended and the rest keep their order |
| KbStore.AfterDelete | src/store/useKbStore.js:76-89 | exactly the entries with that id disappear |
| KbStore.AfterUpdate | src/store/useKbStore.js:92-109 | matching entries are merged with the reply; `currentKb` is merged only when its id matches |
| KbStore.AfterFetchDocuments | src/store/useKbStore.js:112-126 | the document list becomes the reply's items |
| KbStore.AfterUpload | src/store/useKbStore.js:129-141 | a successful upload is followed by the document refetch's effect |
| KbStore.AfterDeleteDocument | src/store/useKbStore.js:144-157 | exactly the documents with that id disappear, and the knowledge bases are untouched |
| KbStore.RemoveDistributes | src/store/useKbStore.js:80-83 | filtering preserves the order of what it keeps |
| KbStore.RemoveAbsent | src/store/useKbStore.js:80-83 | deleting an id nobody has changes nothing |
| KbStore.RemoveIdempotent | src/store/useKbStore.js:80-83 | deleting twice is deleting once |
| KbStore.DeleteUndoesCreate | src/store/useKbStore.js:59-89 | deleting a freshly created knowledge base restores the old list |
| KbStore.MergeIdempotent | src/store/useKbStore.js:97-101 | applying the same update reply twice is applying it once |
| KbStore.MergeKeepsIds | src/store/useKbStore.js:97-101 | an update reply without an `id` keeps every entry's id |
| KbStore.UploadSurvivesRefetchFailure | src/store/useKbStore.js:129-141 | a failed refetch after an upload records the error and keeps the documents |
| KbStore.KbStore.FetchKnowledgebases | src/store/useKbStore.js:23-42 | the store moves by `AfterFetchKnowledgebases` and returns the payload, or `null` on failure |
| KbStore.KbStore.FetchKnowledgebase | src/store/useKbStore.js:45-56 | the store moves by `AfterFetchKnowledgebase` |
| KbStore.KbStore.CreateKnowledgebase | src/store/useKbStore.js:59-73 | the store moves by `AfterCreate` and reports the outcome |
| KbStore.KbStore.DeleteKnowledgebase | src/store/useKbStore.js:76-89 | the store moves by `AfterDelete` |
| KbStore.KbStore.UpdateKnowledgebase | src/store/useKbStore.js:92-109 | the store moves by `AfterUpdate` |
| KbStore.KbStore.FetchDocuments | src/store/useKbStore.js:112-126 | the store moves by `AfterFetchDocuments` |
| KbStore.KbStore.UploadDocument | src/store/useKbStore.js:129-141 | the store moves by `AfterUpload` |
| KbStore.KbStore.DeleteDocument | src/store/useKbStore.js:144-157 | the store moves by `AfterDeleteDocument` |
| KbStore.KbStore.SetCurrentKb | src/store/useKbStore.js:160 | only `currentKb` changes |
| KbStore.KbStore.ClearError | src/store/useKbStore.js:163 | only `error` changes |
| AuthStore.BootUser | src/store/useAuthStore.js:10-26 | the initial user is the stored user exactly when both a token and a stored user exist |
| AuthStore.BootItems | src/store/useAuthStore.js:10-26 | a stored user without a token triggers `clearToken` |
| AuthStore.BootIsConsistent | src/store/useAuthStore.js:10-26 | after start-up, storage never holds a user without a token, and a signed-in start keeps both |
| AuthStore.TokenWithoutUserIsKept | src/store/useAuthStore.js:19-25 | a token without a user stays stored, but the start is signed out |
| AuthStore.GetInitialAuthState | src/store/useAuthStore.js:10-26 | the initial state and storage are `BootUser` and `BootItems` |
| AuthStore.AfterSetUser | src/store/useAuthStore.js:38-41 | `isAuthenticated` is `!!user` and the error is cleared |
| AuthStore.AfterLogin | src/store/useAuthStore.js:44-61 | a failure records the message and keeps the user; a success signs in with the reply's user |
| AuthStore.LoginItems | src/store/useAuthStore.js:44-61 | a failed login leaves storage alone |
| AuthStore.AfterRegister | src/store/useAuthStore.js:64-74 | registering never changes who is signed in |
| AuthStore.AfterLogout | src/store/useAuthStore.js:77-80 | the user is `null`, unauthenticated, without error |
| AuthStore.AfterFetchCurrentUser | src/store/useAuthStore.js:83-97 | a success signs in with the reply's user; a failure signs out |
| AuthStore.FetchItems | src/store/useAuthStore.js:83-97 | a failure clears the token; a success stores the user |
| AuthStore.LoginSignsIn | src/store/useAuthStore.js:44-61 | after a successful login the token and user read back from storage |
| AuthStore.LoginWithoutTokenStillFlags | src/store/useAuthStore.js:52-56 | a reply without a token still flags the store authenticated |
| AuthStore.SignOutAgrees | src/store/useAuthStore.js:77-97 | after a logout or a failed fetch, neither the store nor storage is signed in |
| AuthStore.AuthStore.SetUser | src/store/useAuthStore.js:38-41 | the store moves by `AfterSetUser` and storage by `AfterSetStoredUser` |
| AuthStore.AuthStore.Login | src/store/useAuthStore.js:44-61 | the store moves by `AfterLogin`, storage by `LoginItems` |
| AuthStore.AuthStore.Register | src/store/useAuthStore.js:64-74 | the store moves by `AfterRegister` |
| AuthStore.AuthStore.Logout | src/store/useAuthStore.js:77-80 | the store moves by `AfterLogout` and the token is cleared |
| AuthStore.AuthStore.FetchCurrentUser | src/store/useAuthStore.js:83-97 | the store and storage move by `AfterFetchCurrentUser` and `FetchItems` |
| AuthStore.AuthStore.ClearError | src/store/useAuthStore.js:100 | only `error` changes |
| AuthStore.CreateStore | src/store/useAuthStore.js:28-35 | a new store starts from the boot state and is not loading |
| AuthGuard.RungOf | src/components/AuthGuard.jsx:24-67 | the ladder, checked in order: no token, expired, signed in and still fresh, otherwise ask the backend |
| AuthGuard.Render | src/components/AuthGuard.jsx:73-86 | a spinner exactly while verifying or loading; the page exactly when valid; otherwise a redirect carrying the path |
| AuthGuard.FreshNeedsLiveToken | src/components/AuthGuard.jsx:46-50 | skipping the backend requires a stored, unexpired token inside the window |
| AuthGuard.Guard.VerifyToken | src/components/AuthGuard.jsx:24-67 | per rung: logout and invalid; valid without a call; or the backend's verdict with `markVerified`; a valid verdict always has a live token |
| AuthGuard.SignedInTokenSurvives | src/components/AuthGuard.jsx:53-60 | a successful check keeps the token and its expiry |
| UploadModal.RawExtension | src/components/DocumentUploadModal.jsx:97 | the text after the last dot, or the whole name |
| UploadModal.ExtensionAfterLastDot | src/components/DocumentUploadModal.jsx:97 | for any stem, the extension of `stem.ext` is `ext` |
| UploadModal.BeforeUpload | src/components/DocumentUploadModal.jsx:88-111 | a file is held exactly when it has a dot, an allowed lower-cased extension and at most 100 MiB; otherwise the first failing check names the message |
| UploadModal.UpperCaseExtensionPasses | src/components/DocumentUploadModal.jsx:97-98 | an upper-case `.PDF` passes |
| UploadModal.KeepLast | src/components/DocumentUploadModal.jsx:114-117 | the list keeps only the last file |
| UploadModal.CustomName | src/components/DocumentUploadModal.jsx:49-51 | a name is sent exactly when its trimmed form is nonempty, and it is sent trimmed |
| UploadModal.Verdict | src/components/DocumentUploadModal.jsx:73-81 | success exactly for an ok reply whose `code` is strictly 200 |
| UploadModal.StringCodeFails | src/components/DocumentUploadModal.jsx:73 | a `code` of `"200"` fails |
| UploadModal.Dialog.HandleCancel | src/components/DocumentUploadModal.jsx:27-34 | refused while uploading; otherwise the form is reset and the dialog closes |
| UploadModal.Dialog.HandleChange | src/components/DocumentUploadModal.jsx:114-117 | the file list becomes `KeepLast` of the new list |
| UploadModal.Dialog.HandleRemove | src/components/DocumentUploadModal.jsx:120-122 | the file list empties |
| UploadModal.Dialog.BeginSubmit | src/components/DocumentUploadModal.jsx:37-54 | with no file, an error and no request; otherwise the first file is sent with the custom name and uploading starts |
| UploadModal.Dialog.FinishSubmit | src/components/DocumentUploadModal.jsx:55-85 | the toast is the `Verdict`; success resets the form; `uploading` drops either way |
| KbDetail.RenderActions | src/pages/Knowledgebase/Detail.jsx:176-266 | the buttons per status, and delete last unless the document is processing |
| KbDetail.ProcessingIsLocked | src/pages/Knowledgebase/Detail.jsx:176-266 | delete is offered exactly when not processing; process exactly when pending; reprocess exactly when completed or failed |
| KbDetail.StatusTag | src/pages/Knowledgebase/Detail.jsx:289-292 | the tag of each known status, and the status itself in `default` colour otherwise |
| KbDetail.TagColours | src/pages/Knowledgebase/Detail.jsx:45-50 | every tag uses one of the table's four colours |
| KbDetail.FormatFileSize | src/pages/Knowledgebase/Detail.jsx:168-173 | a dash exactly for a missing or zero size, bytes below 1024, then KB, then MB |
| KbDetail.PaginationBarAsWritten | src/pages/Knowledgebase/Detail.jsx:445 | the bar condition as written, with `None` for the thrown TypeError |
| KbDetail.DetailRenderThrows | src/pages/Knowledgebase/Detail.jsx:75 | the store has no `docPagination`, so the condition throws, which it reaches whenever `currentKb` is truthy |
| KbDetail.PaginationBar | src/pages/Knowledgebase/Detail.jsx:445 | the intended bar, `total > 0`: for a number exactly when it is positive, shown for a positive numeric string, never for a falsy total |
| KbFormModal.ModeOf | src/components/KnowledgebaseFormModal.jsx:36 | the mode defaults to `'create'` |
| KbFormModal.InitialCoverImage | src/components/KnowledgebaseFormModal.jsx:46-54 | read from the data only when editing with data; nulls otherwise |
| KbFormModal.ModalConfig | src/components/KnowledgebaseFormModal.jsx:60-71 | the edit texts exactly for `'edit'`, the create texts for every other mode |
| KbFormModal.UnknownModeIsCreate | src/components/KnowledgebaseFormModal.jsx:60-71 | an unknown mode behaves as create |
| KbFormModal.SubmitData | src/components/KnowledgebaseFormModal.jsx:92-98 | the submitted object is the values with `cover_image` overwritten |
| KbFormModal.SubmittedCoverIsCurrent | src/components/KnowledgebaseFormModal.jsx:92-98 | a stale `cover_image` in the values never survives |
| KbFormModal.FormInitialValues | src/components/KnowledgebaseFormModal.jsx:108-121 | edit copies name and chunk fields, with the description defaulting to `''`; create uses 512 and 50 |
| KbFormModal.ModalKey | src/components/KnowledgebaseFormModal.jsx:124-127 | `closed`, `edit-<id>` or `create` |
| KbFormModal.ModalKeysSeparate | src/components/KnowledgebaseFormModal.jsx:124-127 | an edit key is never `closed` or `create`, and two edit keys agree exactly when the ids print alike |
| KbFormModal.Dialog.ResetForm | src/components/KnowledgebaseFormModal.jsx:76-79 | the fields return to their initial values and the cover to nulls |
| KbFormModal.Dialog.HandleCancel | src/components/KnowledgebaseFormModal.jsx:84-87 | the reset happens, then `onCancel` is called |
| KbFormModal.Dialog.HandleCoverImageChange | src/components/KnowledgebaseFormModal.jsx:103-105 | the cover is replaced as a whole |
| KbFormModal.Dialog.HandleFinish | src/components/KnowledgebaseFormModal.jsx:92-98 | `onSubmit` receives the fields with the current cover's key |
| ChatPage.FragmentText | src/pages/Chat/index.jsx:102 | a fragment contributes its `content`, else its `text`, else nothing |
| ChatPage.History | src/pages/Chat/index.jsx:86-89 | the last ten earlier messages, in order, reduced to role and content |
| ChatPage.ChatHandlers | src/pages/Chat/index.jsx:101-132 | `onMessage` throws exactly on a `null` or `undefined` fragment, and `onComplete` never throws |
| ChatPage.Replay | src/pages/Chat/index.jsx:101-132 | replaying the callbacks in order never changes the list's length |
| ChatPage.OnEvent | src/pages/Chat/index.jsx:101-132 | a callback never changes the list's length |
| ChatPage.ReplayFrame | src/pages/Chat/index.jsx:104-126 | the callbacks write only the placeholder's slot |
| ChatPage.ReplayAccumulates | src/pages/Chat/index.jsx:92-103 | the running text is the delivered fragments' texts, appended in order |
| ChatPage.ReplayEndsInError | src/pages/Chat/index.jsx:115-127 | when `onError` comes last, the slot holds the apology |
| ChatPage.ReplayWithoutError | src/pages/Chat/index.jsx:101-113 | without an error, the slot holds the whole accumulated answer once a fragment arrives, and the placeholder before that |
| ChatPage.SendSettles | src/pages/Chat/index.jsx:94-133 | for any transport behaviour, the slot ends with the apology, the whole answer, or the placeholder |
| ChatPage.FailedRequestApologises | src/pages/Chat/index.jsx:115-127 | a refused or failed request leaves the apology in the slot |
| ChatPage.SendAppends | src/pages/Chat/index.jsx:73-83 | a send keeps the earlier messages and adds exactly the question and the answer's slot |
| ChatPage.Page.HandleSend | src/pages/Chat/index.jsx:57-137 | refused without a knowledge base or with a blank question, changing nothing; otherwise the request carries the trimmed question and the history, the list becomes `Sent`, and the busy flags drop |
| ChatPage.Page.Ask | src/pages/Chat/index.jsx:67-136 | past the guards: the input clears, the list becomes `Sent` for the stream's callback log, and the busy flags drop |
| ChatPage.Page.RunCallbacks | src/pages/Chat/index.jsx:101-132 | the callbacks' loop leaves exactly the state `Replay` gives |
| ChatPage.Page.HandleClear | src/pages/Chat/index.jsx:140-143 | the list empties and nothing else changes |
| SettingsPage.ProviderOptions | src/pages/Settings/index.jsx:126-141 | one option per catalogue entry, valued by its key and labelled with its name; none without a catalogue |
| SettingsPage.ProviderOptionsCoverCatalogue | src/pages/Settings/index.jsx:126-141 | the option values are exactly the providers' keys, each once, each with its own provider's name |
| SettingsPage.ProviderInfo | src/pages/Settings/index.jsx:145-146 | a provider's entry is found only in a catalogue object that has that provider's key |
| SettingsPage.ModelsOf | src/pages/Settings/index.jsx:145-147 | no models for an unknown provider; rendering throws when `models` is not an array |
| SettingsPage.EmbeddingModelOption | src/pages/Settings/index.jsx:147-150 | the value is the path, else the name; the dimension joins the label only when present |
| SettingsPage.LlmModelOption | src/pages/Settings/index.jsx:157-160 | label and value are the model's name |
| SettingsPage.EmbeddingModelOptions | src/pages/Settings/index.jsx:144-151 | one option per model of the chosen provider, in order |
| SettingsPage.LlmModelOptions | src/pages/Settings/index.jsx:154-161 | one option per model of the chosen provider, in order |
| SettingsPage.RequiresFlag | src/pages/Settings/index.jsx:164-181 | the flag is the catalogue's when truthy, and `false` otherwise |
| SettingsPage.UnknownProviderNeedsNothing | src/pages/Settings/index.jsx:164-181 | an unknown provider needs no key and no URL, and offers no models |
| SettingsPage.RetrievalFieldsByMode | src/pages/Settings/index.jsx:403-428 | the vector threshold shows for vector and hybrid, the keyword threshold for keyword and hybrid, the weight for hybrid only |
| SettingsPage.CredentialFieldsFollowCatalogue | src/pages/Settings/index.jsx:232-291 | the key and URL fields show exactly when the chosen provider asks for them, and never before the catalogue loads |
| SettingsPage.SetFieldsValue | src/pages/Settings/index.jsx:66 | the given fields take the new values, and the rest keep theirs |
| SettingsPage.AfterLoad | src/pages/Settings/index.jsx:50-79 | a rejection changes nothing but `loading`; an accepted catalogue is stored; accepted settings fill the form and set the providers and the mode, with defaults |
| SettingsPage.LoadToast | src/pages/Settings/index.jsx:72-74 | only a rejection shows a toast, carrying its message |
| SettingsPage.AfterReset | src/pages/Settings/index.jsx:98-123 | the defaults go into the form and the providers and mode go back to theirs |
| SettingsPage.ResetIdempotent | src/pages/Settings/index.jsx:98-123 | resetting twice is resetting once |
| SettingsPage.LoadDefaultsMatchReset | src/pages/Settings/index.jsx:68-70 | settings without providers or mode load the same drivers a reset sets |
| SettingsPage.ResetFormAgreesWithDrivers | src/pages/Settings/index.jsx:99-121 | after a reset, the form's provider and mode fields match the page's drivers |
| SettingsPage.AfterEmbeddingProviderChange | src/pages/Settings/index.jsx:184-188 | the provider changes and only the embedding model field is cleared |
| SettingsPage.AfterLlmProviderChange | src/pages/Settings/index.jsx:191-195 | the provider changes and only the LLM model field is cleared |
| SettingsPage.ProviderChangesCommute | src/pages/Settings/index.jsx:184-195 | the two provider changes are independent of order |
| SettingsPage.SaveToast | src/pages/Settings/index.jsx:82-95 | success exactly for a reply with code 200; otherwise the server message or a default |
| SettingsPage.Page.Load | src/pages/Settings/index.jsx:50-79 | the page moves by `AfterLoad` and shows `LoadToast` |
| SettingsPage.Page.ApplySettings | src/pages/Settings/index.jsx:64-71 | accepted settings fill the form, and the providers and the mode follow them with their defaults |
| SettingsPage.Page.HandleSave | src/pages/Settings/index.jsx:82-95 | the values are sent; only the toast reports the outcome |
| SettingsPage.Page.HandleReset | src/pages/Settings/index.jsx:98-123 | the page moves by `AfterReset` |
| SettingsPage.Page.HandleEmbeddingProviderChange | src/pages/Settings/index.jsx:184-188 | the page moves by `AfterEmbeddingProviderChange` |
| SettingsPage.Page.HandleLlmProviderChange | src/pages/Settings/index.jsx:191-195 | the page moves by `AfterLlmProviderChange` |
| SettingsPage.Page.SetRetrievalMode | src/pages/Settings/index.jsx:399 | only the retrieval mode changes |
| Header.SelectedKey | src/components/Layout/Header.jsx:30-39 | `/` selects home, any path under `/kb` selects kb, the four exact routes select their keys, and anything else selects nothing |
| Header.ExactRoutesSelectThemselves | src/components/Layout/Header.jsx:34-37 | each exact route selects its own key |
| Header.SubPagesOnlyUnderKb | src/components/Layout/Header.jsx:33-38 | a sub-page of `/kb` keeps its entry, while one of `/chat` or `/settings` selects nothing |
| Header.MenuItems | src/components/Layout/Header.jsx:50-75 | home alone when signed out; home, kb, chat and settings, in that order, when signed in |
| Header.MenuLinksSelectTheirEntry | src/components/Layout/Header.jsx:30-75 | following a menu link highlights that same entry, and the keys are distinct |
| Header.DisplayName | src/components/Layout/Header.jsx:127 | the username, else `用户` |
| Header.SignOutLeavesHome | src/components/Layout/Header.jsx:42-47 | after signing out, the menu offers only home, and `/` highlights it |
| Header.ClearTwiceIsOnce | src/components/Layout/Header.jsx:43-44 | the handler's `clearToken` and the store's second one clear storage once |
| Header.HandleLogout | src/components/Layout/Header.jsx:42-47 | the store signs out, the token is cleared, the toast shows, and the page moves to `/` |

## Left out

- Rendering, styling and routing. The components' JSX is modelled only where it makes a decision: the guard's view, the action buttons, the tags, the hidden fields, the menu and the pagination bar.
- The thin request wrappers (`src/api/knowledgebase.js`, `src/api/auth.js`, `src/api/settings.js`, `src/api/upload.js`, `src/hooks/useAuth.js`). A reply is passed in as a `Settled` value instead.
- The login, register and knowledge-base list pages, and the image uploader. Their logic is library form rules and modal toggling.
- Floating point:
  - the KB and MB texts of `formatFileSize` (`KbDetail.FormatFileSize` gives only the branch);
  - the upload progress percent;
  - the settings' fractional defaults.
- SettingsPage.ResetFields: the four fractional defaults (temperature 0.7, both thresholds 0.2, weight 0.5) are not in the map, because numbers are integers here.
- Property reads on `null` or `undefined`, which throw in JavaScript, read as `undefined` here. Property reads on strings and arrays also read as `undefined`.
- KbStore.ItemsOf: a truthy `items` that is not an array becomes the empty list. The source would keep that value.
- JsValue.Spread: spreading a string or an array contributes nothing, where JavaScript copies indexed properties.
- Table lookups (`STATUS_CONFIG[status]`, `modalConfig[mode]`) do not see `Object.prototype` members such as `toString`.
- SettingsPage.ProviderOptions: `Object.entries` is a parameter, constrained only for a catalogue that is an object.
- Async interleaving:
  - store actions racing on the shared `loading` flag;
  - overlapping chat streams;
  - `handleClear` during a stream;
  - a 401 arriving while the guard verifies.

  Each action is a request followed by its reply.
- SettingsPage.AfterLoad: when both requests reject, the catalogue's rejection is the one reported; the real winner depends on timing.
- AuthEvents.EventBus.Publish: subscribers that subscribe or unsubscribe during a publish are not modelled.
- The route guard's `catch` branch. The store's `fetchCurrentUser` never throws, so the branch is unreachable.
- `processDocument` and `reprocessDocument` in the detail page. The knowledge-base store does not define them, so there is nothing behind the calls.
- KbStore.KbStore.FetchDocuments: the page arguments of `fetchDocuments` are forwarded to the request only and do not change the store, so they are not parameters.
- KbDetail.FormatFileSize: a size that is not a number is not modelled.
- JsValue.StringToNumber: a string with a fraction or an exponent (`"1.5"`, `"1e9"`) converts to `NaN` here, where JavaScript reads a number, because numbers are integers here. This reaches `Token.IsTokenExpired` for such an `exp` claim and `KbDetail.PaginationBar` for such a total.
- Strings.ToLowerAscii: only ASCII letters are lower-cased, where `toLowerCase` maps all of Unicode.
- StreamReader.Run: an `onComplete` that throws is followed by `onError`, as the code does. The documentation says the two are never both called.
- AuthStore.AfterLogin: the store trusts the reply. A reply without a token still marks the user authenticated (`AuthStore.LoginWithoutTokenStillFlags`).
- The toasts of the chat page's `onError`, and the console warnings.
- The setter-based `JSON.stringify` failure in `setStoredUser` is not modelled, because `Host.jsonStringify` is total.

## Findings

| source | as written | input that shows it | evidently intended | confidence | as-written member | corrected member |
|---|---|---|---|---|---|---|
| src/pages/Knowledgebase/Detail.jsx:445 | the page reads `docPagination.total`, but `docPagination` is destructured from the knowledge-base store (line 75), which defines no such member | any store state with a truthy `currentKb` (otherwise lines 324-340 return the spinner or the empty page first): `docPagination` is `undefined`, so reading `total` throws while rendering | the bar shows exactly when a document pagination's total is positive | high (not executed) | KbDetail.PaginationBarAsWritten | KbDetail.PaginationBar |
