# insspira-front in Dafny

A model of the client of Insspira, a pin-sharing web application built on
Next.js. Users browse image pins, like them, comment on them, report them and
upload their own; a dashboard shows their profile, posts, subscription and
payments. Administrators get tables for plans, reports and payments, and
charts of revenue, plan distribution and report reasons.

The client is small pieces of state logic wrapped around REST calls:

- optimistic like toggles with rollback;
- error classification into toasts;
- the session store, persisted in local storage;
- the axios request and response interceptors;
- the route guard of the Next.js middleware;
- the mappers from backend records to view records;
- the admin tables' row updates;
- the sorting and grouping behind the admin charts.

Each core source file has one module of its own, named after the file.

- **Pure code becomes functions and lemmas.** This covers mappers, parsers, payload builders, the middleware decision, the chart computations and the payments sort.
- **Components and providers become classes.** Their state lives in fields; every handler is a method with a `modifies` clause; the `ensures` state the whole new state.
- **Network replies become parameters.** They have type `Base.Net<T>`: either `Ok(value)` or `Fail(status)`.
- **Requests become state.** The requests a handler sends, the toasts it shows, and the redirects and storage writes it makes are recorded in fields. A contract can then say what was sent and in what order.
- **Local storage and navigation live in `Browser.Browser`.** This covers `localStorage` and `window.location`. Every handler whose request goes through the shared axios instance takes the browser and passes the reply through `Api.Settle`, the response interceptor, so a 401 ends the session wherever it arrives.

Helper modules:

- `Base` holds `Option`, `Net`, and string functions that follow JavaScript's `trim`, `split`, `join`, `includes` and `toLowerCase` over ASCII, plus `filter` and decimal printing.
- `Lex` holds code-unit string order together with its total-order lemmas.
- `PinTypes` and `UiTypes` hold the records the components share.

The model follows what the code does where the code departs from what its names and comments suggest:

- `authFetch` takes its token from memory, not from storage (src/context/AuthContext.tsx:222-230);
- bootstrap always calls `getMe`, even when storage already holds a session (src/context/AuthContext.tsx:107-135);
- `addComment` swallows request failures and returns `undefined` (src/services/pins.services.ts:234-242), so the 403 branch of the comment handler never runs;
- a failed fetch in the plans or reports table leaves the table loading: the fetch throws before `setLoading(false)`;
- the payments table only sorts a copy of the fetched list.

## Model

| member | source | states |
|---|---|---|
| PinsCard.Toggled | src/components/pins/PinsCard.tsx:42-45 | the optimistic state flips `liked`; a like adds exactly 1, an unlike subtracts 1 floored at 0, so a non-negative count stays non-negative |
| PinsCard.ToggledTwice | src/components/pins/PinsCard.tsx:42-45 | toggling twice gives the state back exactly when it was not a like shown with count 0 (the floor is the only loss) |
| PinsCard.LikeFailureMessage | src/components/pins/PinsCard.tsx:59-64 | the daily-limit text iff the failure has status 403, the generic text otherwise |
| PinsCard.LikeToasts | src/components/pins/PinsCard.tsx:55-64 | no toast iff the like succeeded; a failure adds one error toast with the classified message |
| PinsCard.LikeButton.constructor | src/components/pins/PinsCard.tsx:27 | the button starts idle, with the parent's like state, no requests and no toasts |
| PinsCard.LikeButton.BeginLike | src/components/pins/PinsCard.tsx:34-54 | a click while `isLiking` changes nothing and sends nothing; otherwise the pre-click state is saved, the toggled state is published and one `addLike` is sent, before any reply |
| PinsCard.LikeButton.FinishLike | src/components/pins/PinsCard.tsx:52-67 | on failure the state is exactly the saved snapshot and one toast is added; on success the optimistic state stays; `isLiking` is false either way; a 401 reply, through the shared api's response interceptor, removes the two session keys and records a redirect to /login, any other reply leaves the browser alone |
| PinsCard.LikeButton.HandleLike | src/components/pins/PinsCard.tsx:30-68 | a whole click: ignored while liking (no request, browser untouched); otherwise one request, the toggle kept on success and undone on failure, the flag cleared; a 401 reply, through the shared api's response interceptor, removes the two session keys and records a redirect to /login, any other reply leaves the browser alone |
| PinsCard.DoubleClickSendsOnce | src/components/pins/PinsCard.tsx:34-36 | two clicks before the reply send one request, and the pin ends toggled once on success and untouched on failure |
| PinsList.InitialLikesKeys | src/components/pins/PinsList.tsx:39-45 | the folded like map has exactly one key per displayed pin id |
| PinsList.InitialLikesLastWins | src/components/pins/PinsList.tsx:39-45 | the entry of an id is the one written by the last pin carrying it: `liked ?? false` and its `likesCount` |
| PinsList.InitialLikesDistinct | src/components/pins/PinsList.tsx:39-45 | with distinct ids, every displayed pin reads back as `{liked: pin.liked ?? false, likesCount: pin.likesCount}` |
| PinsList.NormalizePin | src/components/pins/PinsList.tsx:58-61 | a missing or whitespace-only image becomes "/architecture.jpg", a non-blank one is kept, and every other field is unchanged |
| PinsList.PinsList.constructor | src/components/pins/PinsList.tsx:15-22 | no pins fetched, an empty like map, the modal closed and nothing selected |
| PinsList.PinsList.Displayed | src/components/pins/PinsList.tsx:34 | the search results when they are not null, otherwise all fetched pins |
| PinsList.PinsList.LikeOf | src/components/pins/PinsList.tsx:73-95 | the map's entry for the id, or `{liked: false, likesCount: 0}` when it has none |
| PinsList.PinsList.FetchPins | src/components/pins/PinsList.tsx:24-32 | without search results the fetched pins replace `allPins` (with `[]` on failure); a 401 reply, through the shared api's response interceptor, removes the two session keys and records a redirect to /login, any other reply leaves the browser alone; with search results nothing is fetched and nothing changes |
| PinsList.PinsList.SetSearchResults | src/components/pins/PinsList.tsx:10 | a new `searchResults` prop; all other state is kept |
| PinsList.PinsList.SyncLikes | src/components/pins/PinsList.tsx:36-48 | an empty displayed list leaves the like map untouched; otherwise the whole map is replaced by the fold over the displayed pins |
| PinsList.PinsList.SetLike | src/components/pins/PinsList.tsx:74-98 | the entry of that id becomes the new state and every other entry reads as before |
| PinsList.PinsList.CloseIfGone | src/components/pins/PinsList.tsx:51-56 | a selected id that no displayed pin carries closes the modal and clears the selection; otherwise nothing changes |
| PinsList.PinsList.Open | src/components/pins/PinsList.tsx:78-82 | a card click selects the pin, opens the modal and records one `addView` for it; a 401 reply, through the shared api's response interceptor, removes the two session keys and records a redirect to /login, any other reply leaves the browser alone |
| PinsList.PinsList.Close | src/components/pins/PinsList.tsx:99-102 | the modal's close closes it and clears the selection, leaving the likes alone |
| PinModal.LikeFailureToast | src/components/pins/PinModal.tsx:79-85 | the limit toast iff the like failed with 403, the generic error toast otherwise |
| PinModal.CommentToastsAsWritten | src/components/pins/PinModal.tsx:99-104 | as written, every comment attempt that gets past the guard shows the success toast, whatever `addComment` returned |
| PinModal.CommentFailureShownAsSuccess | src/components/pins/PinModal.tsx:99-113 | a comment rejected with 403 still shows the success toast and never the limit message |
| PinModal.CommentToastsIntendedClassify | src/components/pins/PinModal.tsx:100-113 | the corrected toasts: exactly one; success iff the comment was stored, the limit text iff 403, the generic text for any other failure |
| PinModal.ReportToastsAsWritten | src/components/pins/PinModal.tsx:120-122 | as written, every report that gets past the guard shows the success toast |
| PinModal.ReportFailureShownAsSuccess | src/components/pins/PinModal.tsx:120-127 | a failed report shows the success toast and never the error toast |
| PinModal.ReportToastsIntendedClassify | src/components/pins/PinModal.tsx:122-127 | the corrected toasts: the success toast iff the report was accepted, the error toast iff it failed |
| PinModal.PinModal.constructor | src/components/pins/PinModal.tsx:45-53 | no pin, loading, no comments, an empty draft, the report menu closed with type "spam" and an empty reason |
| PinModal.PinModal.FetchPin | src/components/pins/PinModal.tsx:56-68 | the pin is `getPinById` of the reply and is absent iff the request failed; a fetched pin is adopted with its comments or `[]`; a null result clears pin and comments; loading is cleared; a 401 reply, through the shared api's response interceptor, removes the two session keys and records a redirect to /login, any other reply leaves the browser alone |
| PinModal.PinModal.HandleLike | src/components/pins/PinModal.tsx:74-87 | without a pin nothing is sent and the browser is untouched; a successful like raises `likes` by exactly 1 and changes no other field; a failure keeps the pin and adds the classified toast; a 401 reply, through the shared api's response interceptor, removes the two session keys and records a redirect to /login, any other reply leaves the browser alone |
| PinModal.PinModal.SetDraft | src/components/pins/PinModal.tsx:198 | the draft becomes the typed text and nothing else changes |
| PinModal.PinModal.HandleAddComment | src/components/pins/PinModal.tsx:89-115 | without a pin or with a blank draft nothing happens; otherwise one request and the as-written toast; a stored comment is appended last and clears the draft; a failure keeps comments and draft; a 401 reply, through the shared api's response interceptor, removes the two session keys and records a redirect to /login, any other reply leaves the browser alone |
| PinModal.PinModal.HandleAddCommentIntended | src/components/pins/PinModal.tsx:89-115 | the same handler with the toast chosen by the outcome, and the same effect of the reply on the browser |
| PinModal.PinModal.SetReportMenu | src/components/pins/PinModal.tsx:224-265 | the report menu is opened or closed and nothing else changes |
| PinModal.PinModal.SetReport | src/components/pins/PinModal.tsx:244-258 | the report type and reason become the chosen values |
| PinModal.PinModal.HandleReport | src/components/pins/PinModal.tsx:117-129 | without a pin nothing is sent; otherwise a report is sent when the id is non-empty, the menu closes and the reason clears whatever the outcome; a sent report's 401 reply removes the two session keys and records /login, and the browser is untouched when no report is sent or the reply is not a 401 |
| PinModal.PinModal.HandleReportIntended | src/components/pins/PinModal.tsx:117-129 | the corrected handler: the menu closes and the reason clears only when the report was accepted, with the toast of the outcome; a sent report's reply reaches the browser as in `HandleReport` |
| PinsServices.GetAuthToken | src/services/pins.services.ts:14-24 | a non-empty "auth:token" from local storage wins, else a non-empty "auth-token" cookie, else null; a returned token is never empty |
| PinsServices.SentAuthorization | src/lib/api.ts:17-35 | the `Authorization` such a request carries: the interceptor's "Bearer <token>" in a browser with a stored token, else the service's own header |
| PinsServices.BearerHeader | src/services/pins.services.ts:206-237 | the header the service sets before the request interceptor runs: "Bearer " followed by the token, or by "null" when there is none (the calls do not stop on a missing token) |
| PinsServices.GetAllPins | src/services/pins.services.ts:74-92 | one pin per backend pin, same length and order, the listed fields copied, a missing hashtag list defaulted to `[]`; `[]` on failure |
| PinsServices.ListOrEmpty | src/services/pins.services.ts:122-140 | `searchPins` and `getCategories`: the data as received, `[]` on failure |
| PinsServices.GetPinById | src/services/pins.services.ts:95-117 | null exactly on failure; otherwise every field copied with likes, comment and views defaulted to 0 |
| PinsServices.AddComment | src/services/pins.services.ts:225-243 | the response iff the request succeeded; a failure is swallowed into undefined instead of thrown |
| PinsServices.ReportTarget | src/services/pins.services.ts:246-271 | a request is sent iff `targetId` is non-empty; the result is the response iff one was sent and succeeded, null otherwise |
| PinsServices.ExplainStatusReadsBack | src/services/pins.services.ts:64-72 | the explanation starts with "HTTP ", then the status written in decimal (which reads back as the status) or "?", then a space |
| PinsServices.ExplainBodyIsTail | src/services/pins.services.ts:69-71 | a string body ends the explanation unchanged |
| UploadPin.ValidateFile | src/components/pins/UploadPin.tsx:11-17 | null iff the type is jpeg, png or webp and the size is at most 2 MB; a disallowed type gets the format message even when oversized; an allowed oversized file gets the size message |
| UploadPin.ValidateFileBoundary | src/components/pins/UploadPin.tsx:12-15 | exactly 2*1024*1024 bytes passes and one byte more is rejected |
| UploadPin.StripHash | src/components/pins/UploadPin.tsx:104 | one leading '#' is removed and nothing else |
| UploadPin.CleanTagsAt | src/components/pins/UploadPin.tsx:104 | each piece is trimmed and loses one leading '#' |
| UploadPin.ParseHashtagsTokens | src/components/pins/UploadPin.tsx:102-105 | every parsed tag is non-empty and free of whitespace and commas |
| UploadPin.HashtagsRoundTrip | src/components/pins/UploadPin.tsx:102-105 | space-joined plain tags (non-empty, no separators, no leading '#') parse back to the same list |
| UploadPin.HashPrefixDropped | src/components/pins/UploadPin.tsx:104 | "#tag" parses as the single tag "tag" |
| UploadPin.FailureToast | src/components/pins/UploadPin.tsx:124-140 | 401 gives the session toast, 403 the limit toast, otherwise the server message (arrays joined with ", ") or the generic failure toast |
| UploadPin.FailureError | src/components/pins/UploadPin.tsx:124-140 | no form error on 401 or 403; otherwise the server message that is also toasted, or the longer generic error |
| UploadPin.UploadRequestsOrder | src/components/pins/UploadPin.tsx:98-113 | the signature is requested first; the upload is sent iff the signature came back; the pin is saved iff both earlier steps succeeded |
| UploadPin.LoginRedirects | src/components/pins/UploadPin.tsx:124-128 | a redirect to "/login" iff the first failing step failed with 401, and none when every step succeeded |
| UploadPin.RunSteps | src/components/pins/UploadPin.tsx:97-113 | runs the three steps up to the first failure; a 401 from an `api` call also runs the shared interceptor, which clears the session keys and redirects |
| UploadPin.EndSession | src/components/pins/UploadPin.tsx:126-128 | removes "auth:token" and "auth:user" and records a redirect to "/login" |
| UploadPin.UploadForm.constructor | src/components/pins/UploadPin.tsx:20-28 | no file, empty texts and category, no error, not uploading, no preview |
| UploadPin.UploadForm.SelectFile | src/components/pins/UploadPin.tsx:30-47 | a rejected file sets the error and clears file and preview; an accepted one clears the error and becomes the file with its preview |
| UploadPin.UploadForm.LoadCategories | src/components/pins/UploadPin.tsx:64-77 | the categories become the fetched list (`[]` on failure) and a non-empty list selects its first category; a 401 reply, through the shared api's response interceptor, removes the two session keys and records a redirect to /login, any other reply leaves the browser alone |
| UploadPin.UploadForm.Edit | src/components/pins/UploadPin.tsx:222-248 | the description, hashtag input and category take the typed values |
| UploadPin.UploadForm.Upload | src/components/pins/UploadPin.tsx:94-143 | the steps' requests in order; on success the toast and the form reset with `categoryId` kept; on failure the classified toast and error, the form kept, and the session keys removed on 401; `uploading` false after any outcome |
| UploadPin.UploadForm.Uploaded | src/components/pins/UploadPin.tsx:115-119 | the success toast, and file, preview, description and hashtags cleared |
| UploadPin.UploadForm.Reject | src/components/pins/UploadPin.tsx:120-140 | the failure toast, the session ended on 401, and the form error set except on 401 and 403 |
| UploadPin.UploadForm.HandleUpload | src/components/pins/UploadPin.tsx:79-144 | an incomplete form only sets the required error; a missing token only shows the login toast; neither sends a request; otherwise as `Upload` |
| ImageEditModal.PreviewFor | src/components/dashboard/ImageEditModal.tsx:18-32 | the trimmed `currentUrl` when it is non-blank, else the fallback avatar URL; never empty |
| ImageEditModal.PreviewKeepsCleanUrl | src/components/dashboard/ImageEditModal.tsx:21 | a URL without surrounding blanks is shown as it is |
| ImageEditModal.AvatarCheck | src/components/dashboard/ImageEditModal.tsx:41-50 | no error iff the type is png, jpeg or webp and the size is at most 5 MB; the type is checked before the size |
| ImageEditModal.AvatarCheckBoundary | src/components/dashboard/ImageEditModal.tsx:47 | exactly 5*1024*1024 bytes passes, one byte more fails, and a gif fails on format whatever its size |
| ImageEditModal.ImageEditor.constructor | src/components/dashboard/ImageEditModal.tsx:21-26 | the preview starts from `PreviewFor(currentUrl)`, with no file, no error and no drag |
| ImageEditModal.ImageEditor.Open | src/components/dashboard/ImageEditModal.tsx:28-37 | opening resets the preview from `currentUrl`, file and error to null and dragging to false |
| ImageEditModal.ImageEditor.ReadFile | src/components/dashboard/ImageEditModal.tsx:41-52 | a rejected file sets the error and leaves the selected file unchanged; an accepted one clears the error and becomes the file |
| ImageEditModal.ImageEditor.PreviewLoaded | src/components/dashboard/ImageEditModal.tsx:54-57 | a non-empty data URL becomes the preview; an empty one changes nothing |
| ImageEditModal.ImageEditor.SetDragging | src/components/dashboard/ImageEditModal.tsx:96-100 | the drag flag follows drag-over and drag-leave |
| ImageEditModal.ImageEditor.Drop | src/components/dashboard/ImageEditModal.tsx:66-72 | a drop clears the drag flag and reads the dropped file, if any, as `ReadFile` |
| ImageEditModal.ImageEditor.Save | src/components/dashboard/ImageEditModal.tsx:157-160 | `onSave` gets the file only when one is selected, and `onClose` is called in every case |
| ImageEditModal.RejectedDropSavesNothing | src/components/dashboard/ImageEditModal.tsx:41-50 | a rejected file followed by Save hands nothing to `onSave` and leaves the error showing |
| AuthContext.ReadStorage | src/context/AuthContext.tsx:61-70 | both null without a window or when the stored user does not parse; otherwise the parsed user (null for a missing or empty entry) and the stored token or null |
| AuthContext.Written | src/context/AuthContext.tsx:72-81 | the user key holds the serialised user iff there is one and is removed otherwise; the token key holds a non-empty token and is removed otherwise; every other key is untouched |
| AuthContext.ReadWritten | src/context/AuthContext.tsx:61-81 | reading back what was written gives the pair, with an empty token read as absent, whenever parsing inverts serialising |
| AuthContext.WrittenEmpty | src/context/AuthContext.tsx:72-78 | writing (null, null) removes exactly the two auth keys |
| AuthContext.UnauthorizedSignsOut | src/lib/api.ts:38-52 | after a 401 reply the stored session reads back as no user and no token, and the store is what writing (null, null) leaves |
| AuthContext.AuthFetchInit | src/context/AuthContext.tsx:222-230 | "Bearer <token>" is added only when the in-memory token is non-empty and no Authorization header exists; credentials are always "include" |
| AuthContext.AuthFetchKeepsHeaders | src/context/AuthContext.tsx:222-225 | every header the caller passed is kept with its value |
| AuthContext.AuthProvider.constructor | src/context/AuthContext.tsx:86-88 | the state starts as `readStorage()`, not hydrated and not checking |
| AuthContext.AuthProvider.WriteStorage | src/context/AuthContext.tsx:72-81 | the store becomes `Written` of the old store and the pair |
| AuthContext.AuthProvider.SetAuth | src/context/AuthContext.tsx:90-93 | state and store both hold the new (user, token) pair afterwards |
| AuthContext.AuthProvider.OnStorage | src/context/AuthContext.tsx:97-101 | an event on the user or token key reloads the state from storage; other keys are ignored |
| AuthContext.AuthProvider.StartBootstrap | src/context/AuthContext.tsx:108-109 | the bootstrap sets `isChecking` and changes nothing else |
| AuthContext.AuthProvider.FinishBootstrap | src/context/AuthContext.tsx:111-125 | a non-null `getMe` result is adopted with the current token unless cancelled; when not cancelled `isChecking` is false and `isHydrated` true, whatever the outcome |
| AuthContext.AuthProvider.Login | src/context/AuthContext.tsx:178-186 | a null response returns null and changes nothing; otherwise the response's pair is stored and its user returned |
| AuthContext.AuthProvider.Register | src/context/AuthContext.tsx:188-196 | a null response returns false and changes nothing; otherwise the pair is stored and the result is true iff a user or a token came back |
| AuthContext.AuthProvider.Logout | src/context/AuthContext.tsx:198-218 | user and token are null in state and store whatever the network does, so the user is neither authenticated nor admin |
| AuthContext.AuthProvider.AuthFetch | src/context/AuthContext.tsx:220-233 | the request is decorated from the in-memory token, not from storage |
| AuthContext.SetAuthSurvivesReload | src/context/AuthContext.tsx:61-93 | after `setAuth(u, t)` a fresh provider on the same store reads the pair back |
| Browser.Browser.GetItem | src/context/AuthContext.tsx:64-65 | `localStorage.getItem`: the stored value, or null when the key is absent |
| Browser.Browser.SetItem | src/context/AuthContext.tsx:74-76 | `localStorage.setItem`: that key takes the value and nothing else changes |
| Browser.Browser.RemoveItem | src/context/AuthContext.tsx:75-77 | `localStorage.removeItem`: that key is gone and nothing else changes |
| Browser.Browser.Navigate | src/lib/api.ts:47 | setting `window.location.href` records the target and leaves the store alone |
| Api.StripTrailingSlashes | src/lib/api.ts:9 | `replace(/\/+$/, '')`: a prefix of the input, what was dropped is all '/', and the result never ends in '/' |
| Api.StripIdempotent | src/lib/api.ts:9 | stripping twice is stripping once, and a URL without a trailing '/' is kept |
| Api.BaseUrl | src/lib/api.ts:5-9 | the first non-empty of the two environment values, else "http://localhost:3000", with trailing slashes stripped; never ends in '/' |
| Api.SlashOnlyBaseIsEmpty | src/lib/api.ts:5-9 | a base URL of only slashes becomes the empty string; the fallback is not consulted |
| Api.PickToken | src/lib/api.ts:20-23 | a found token is a non-empty value of one of the three keys; none is found iff all three are absent or empty; "auth:token" wins |
| Api.PickTokenPrecedence | src/lib/api.ts:20-23 | "token" is used only when "auth:token" is absent or empty, and "access_token" only when both are |
| Api.DecorateRequest | src/lib/api.ts:17-35 | headers untouched without a window or a token; otherwise Authorization becomes "Bearer <token>" and other headers are kept |
| Api.Settle | src/lib/api.ts:38-52 | every response is passed on unchanged; a 401 in a browser removes "auth:token" and "auth:user" and redirects to /login; other outcomes leave the store alone |
| Middleware.Decide | middleware.ts:10-39 | no token redirects to /login whatever the path and role; a non-admin under /dashboard/admin goes to the literal "/dashboadrd"; an admin on exactly /dashboard goes to /dashboard/admin; it passes iff none of these applies |
| Middleware.Guard | middleware.ts:4-8 | paths outside `/dashboard/:path*` pass untouched; the rest get `Decide` |
| Middleware.NoTokenAlwaysLogin | middleware.ts:15-22 | the token check comes before both role checks |
| Middleware.AdminSubpathPasses | middleware.ts:25-38 | an admin with a token on /dashboard/admin/x is not redirected |
| Middleware.UserOnDashboard | middleware.ts:25-36 | a user stays on /dashboard; a user or a visitor without a role cookie is sent away from /dashboard/admin |
| Middleware.AdminPrefixIsTextual | middleware.ts:25 | the admin check is a plain prefix test, so /dashboard/administrator is guarded as well |
| Middleware.NonAdminTargetUncovered | middleware.ts:4-27 | the "/dashboadrd" target is outside the matcher and is not /dashboard, so the redirect lands on an unguarded, misspelt route |
| Middleware.DecideIntended | middleware.ts:25-29 | the corrected guard: the same decision except that the non-admin redirect goes to /dashboard |
| Middleware.DecideIntendedLands | middleware.ts:4-36 | the corrected redirect target is guarded and passes for the same visitor, so it does not loop |
| DashboardService.TagsOf | src/services/dashboard.ts:73 | the hashtags' tag strings, in order |
| DashboardService.ToUIPost | src/services/dashboard.ts:63-75 | id and image copied; the title is the description or "Untitled" when empty or missing; likes and views default to 0; the tags are the non-empty tag strings in order, or `[]` without an array |
| DashboardService.ToUIPostTags | src/services/dashboard.ts:73 | every tag shown is non-empty and is the tag of some hashtag of the pin |
| DashboardService.ToUIPosts | src/services/dashboard.ts:80-85 | one post per backend pin, in the same order |
| DashboardService.FetchPosts | src/services/dashboard.ts:78-86 | `fetchUserPins`/`fetchUserLikedPins`: null data gives `[]`, otherwise the mapped list; a failure is passed on |
| DashboardService.FetchSubscriptionStatus | src/services/dashboard.ts:157-164 | the data, or null when absent or on failure |
| DashboardService.FetchPaymentHistory | src/services/dashboard.ts:166-173 | the history list, or `[]` when absent or on failure |
| DashboardView.RawType | src/view/dashboard/DashboardView.tsx:62-67 | a non-empty string plan first, then the plan object's non-empty type, then the lower-cased description of the first history item, else "" |
| DashboardView.Classify | src/view/dashboard/DashboardView.tsx:69-72 | Business iff the raw type contains "annual"; Pro iff it contains "monthly" but not "annual"; Free otherwise ("annual" wins when both appear) |
| DashboardView.FeaturesFrom | src/view/dashboard/DashboardView.tsx:77-87 | a plan object's array as is; its string split on ',', trimmed and without empties; `[]` for a plan object without features; otherwise `benefits.features` or `[]` |
| DashboardView.FeatureTextClean | src/view/dashboard/DashboardView.tsx:82-85 | each feature read from a string is non-empty and is one of the trimmed pieces |
| DashboardView.PriceFor | src/view/dashboard/DashboardView.tsx:89-96 | the first history item's `usdPrice` when it is a number (any decimal, such as 9.99), else 10 for Pro, 100 for Business, 0 for Free |
| DashboardView.MapStatusToUISubscription | src/view/dashboard/DashboardView.tsx:58-109 | the classified plan; active iff there is an active payment or the plan is Free, else past_due; `renewsAt` only with an active payment; the price; currency USD; the features, or the two defaults when there are none |
| DashboardView.NothingKnownIsFree | src/view/dashboard/DashboardView.tsx:58-173 | with no status and no history the subscription is exactly the Free default of the base user |
| DashboardView.PaymentOf | src/view/dashboard/DashboardView.tsx:112-123 | the id as text, date and description copied, method CARD, the status, amount `usdPrice` as the same decimal, currency USD |
| DashboardView.MapHistoryToUIPayments | src/view/dashboard/DashboardView.tsx:111-125 | one payment per history item, in order |
| DashboardView.PaymentIdReadsBack | src/view/dashboard/DashboardView.tsx:116 | a numeric id is written as decimal digits that read back as the id |
| DashboardView.UiPostToUI | src/view/dashboard/DashboardView.tsx:43-52 | every field of the service post is carried over |
| DashboardView.UiPostsToUI | src/view/dashboard/DashboardView.tsx:183-184 | one view post per service post, in order |
| DashboardView.BaseUser | src/view/dashboard/DashboardView.tsx:157-175 | backend fields first, then the session's, then the defaults: name, email, an empty avatar and bio, the backend user's converted `createdAt` as join date ("" without a backend user), `pinsCount` or 0, the Free subscription and no payments |
| DashboardView.NewAvatar | src/view/dashboard/DashboardView.tsx:242-244 | the returned `profilePicture`, else the uploaded `secure_url`, else the previous avatar |
| DashboardView.LoadedUser | src/view/dashboard/DashboardView.tsx:192-200 | the base user with `postsCount` equal to the number of own posts and with the mapped subscription and payments |
| DashboardView.Dashboard.constructor | src/view/dashboard/DashboardView.tsx:134-138 | no user, no posts, no liked posts, no notice |
| DashboardView.Dashboard.Load | src/view/dashboard/DashboardView.tsx:144-230 | nothing happens until hydrated, authenticated and with an id; otherwise the loaded user and both post lists, or on any thrown failure the fallback user, empty lists and the notice unless it was dismissed |
| DashboardView.Dashboard.SaveAvatar | src/view/dashboard/DashboardView.tsx:237-248 | when all three calls succeed only the avatar changes, to `NewAvatar`; any failure changes nothing |
| DashboardView.Dashboard.DismissNotice | src/view/dashboard/DashboardView.tsx:292-293 | the notice is hidden and the dismissal is stored as "1" |
| DashboardView.DismissedNoticeStaysHidden | src/view/dashboard/DashboardView.tsx:226-293 | after a dismissal, a failing load does not show the notice again |
| ProfileHeader.PlaceholderBase | src/components/dashboard/ProfileHeader.tsx:9 | the trimmed first truthy value of name, email and "User" |
| ProfileHeader.Initial | src/components/dashboard/ProfileHeader.tsx:10 | the base's first character upper-cased, or 'U' when the base is empty |
| ProfileHeader.BlankNameGivesU | src/components/dashboard/ProfileHeader.tsx:9-10 | a whitespace-only name is truthy, so it wins over the email and trims to "", giving 'U' |
| ProfileHeader.ChooseSrc | src/components/dashboard/ProfileHeader.tsx:42-45 | an avatar with non-whitespace is used as is; otherwise the placeholder of the name and email |
| ProfileHeader.SrcText | src/components/dashboard/ProfileHeader.tsx:17-45 | a stored avatar is its URL; the placeholder is the "data:image/svg+xml;utf8," prefix followed by the encoded SVG |
| ProfileHeader.PlaceholderUnoptimized | src/components/dashboard/ProfileHeader.tsx:17-58 | image optimisation is off for every placeholder, and for a stored avatar iff it starts with "data:" |
| ProfileHeader.SafeDateLabel | src/components/dashboard/ProfileHeader.tsx:20-25 | "—" for a null or empty value and for an unparsable date; otherwise the formatted date |
| ProfileEditForm.InitialForm | src/components/dashboard/ProfileEditForm.tsx:17-22 | the form starts from the profile, with username and bio defaulting to "" |
| ProfileEditForm.Merged | src/components/dashboard/ProfileEditForm.tsx:35-41 | name, username, email and bio take the server value when non-null, else the form value; every other profile field is carried over |
| ProfileEditForm.UntouchedSaveKeepsProfile | src/components/dashboard/ProfileEditForm.tsx:17-41 | saving an unedited form against an empty server answer gives the profile back |
| ProfileEditForm.EditForm.constructor | src/components/dashboard/ProfileEditForm.tsx:17-23 | the form is `InitialForm(value)`, not saving, nothing sent or reported |
| ProfileEditForm.EditForm.Save | src/components/dashboard/ProfileEditForm.tsx:25-49 | one update request with the form; on success `onChange` gets the merge and `onSaved` is called once; a failure calls neither; `saving` is false after any outcome |
| DashboardAdmin.ToCsv | src/services/dashboardAdmin.ts:89 | no usable item gives ""; a single usable item is sent trimmed and alone |
| DashboardAdmin.CleanItems | src/services/dashboardAdmin.ts:89 | every item that reaches the CSV is non-empty, trimmed, and keeps the separators its source item avoided |
| DashboardAdmin.ToCsvSplit | src/services/dashboardAdmin.ts:89 | when no item holds a comma and some item is not blank, splitting the CSV on ',' gives back exactly the trimmed non-empty items, in order |
| DashboardAdmin.CleanIdempotent | src/services/dashboardAdmin.ts:89 | trimming and dropping empties a second time changes nothing |
| DashboardAdmin.NormalizePlan | src/services/dashboardAdmin.ts:146-150 | an array of features is kept, anything else becomes `[]`; every other field is copied |
| DashboardAdmin.NormalizePlans | src/services/dashboardAdmin.ts:135-151 | one normalised plan per fetched row, same length and order |
| DashboardAdmin.UpsertPayload | src/services/dashboardAdmin.ts:153-162 | the id key is present iff the input id is non-empty, the type key iff the type is non-empty; features become `toCsv` of the list; the rest is copied |
| DashboardAdmin.UpdatePayload | src/services/dashboardAdmin.ts:166-174 | never an id key; the type key iff the type is non-empty; features become `toCsv` of the list; the rest is copied |
| DashboardAdmin.PayloadsAgreeButId | src/services/dashboardAdmin.ts:153-174 | the patch body is the post body with the id key removed |
| PlansTable.NewPlanPayload | src/components/dashboard/admin/PlansTable.tsx:51-58 | "Add plan" posts name "Plus", price 9.99, "USD", the CSV "New feature", active, with no id and no type |
| PlansTable.Visible | src/components/dashboard/admin/PlansTable.tsx:31-35 | a blank query shows every row; otherwise exactly the rows whose lower-cased name contains the trimmed, lower-cased query, in their order |
| PlansTable.VisibleIgnoresCase | src/components/dashboard/admin/PlansTable.tsx:32 | two queries that trim and lower-case alike show the same rows |
| PlansTable.ToggledRows | src/components/dashboard/admin/PlansTable.tsx:39 | the rows with that id take the returned active flag; every other row is unchanged |
| PlansTable.ApplyPatch | src/components/dashboard/admin/PlansTable.tsx:47 | `{ ...p, ...updated }`: each field the reply carries wins, each one it lacks keeps the row's value |
| PlansTable.EmptyPatchKeeps | src/components/dashboard/admin/PlansTable.tsx:47 | an empty reply leaves the row as it was |
| PlansTable.MergedRows | src/components/dashboard/admin/PlansTable.tsx:47 | the rows with the edited id are merged with the reply; every other row is unchanged |
| PlansTable.RemovedRows | src/components/dashboard/admin/PlansTable.tsx:68 | exactly the rows whose id differs, in their order |
| PlansTable.FindById | src/components/dashboard/admin/PlansTable.tsx:62 | `find`: the first row with that id, or nothing iff no row has it |
| PlansTable.PlansTable.constructor | src/components/dashboard/admin/PlansTable.tsx:15-18 | empty query, no rows, loading, nothing being edited, no requests |
| PlansTable.PlansTable.Filtered | src/components/dashboard/admin/PlansTable.tsx:31-35 | the memoised list: every row for a blank query, else exactly the matching rows |
| PlansTable.PlansTable.SetQuery | src/components/dashboard/admin/PlansTable.tsx:78 | the query takes the typed text and nothing else changes |
| PlansTable.PlansTable.Load | src/components/dashboard/admin/PlansTable.tsx:20-25 | the plans are fetched; on success the rows are the normalised plans and loading clears; on failure the rows stay and loading stays set |
| PlansTable.PlansTable.ToggleActive | src/components/dashboard/admin/PlansTable.tsx:37-40 | the toggle request is sent; the rows change only on a reply, to the toggled rows |
| PlansTable.PlansTable.Edit | src/components/dashboard/admin/PlansTable.tsx:114 | the clicked plan becomes the one being edited |
| PlansTable.PlansTable.CloseEditor | src/components/dashboard/admin/PlansTable.tsx:136 | nothing is being edited any more; the rows stay |
| PlansTable.PlansTable.SavePlan | src/components/dashboard/admin/PlansTable.tsx:42-49 | with nothing being edited nothing happens; otherwise the patch of the edited id is sent, and on a reply the rows are merged and the editor closes; a failed reply changes neither |
| PlansTable.PlansTable.AddPlan | src/components/dashboard/admin/PlansTable.tsx:51-64 | the new plan is posted; once created it goes first and the plans are fetched again, and the fresh copy with its id, or else the created plan, is opened for editing; a failure stops at the step that failed |
| PlansTable.PlansTable.RemovePlan | src/components/dashboard/admin/PlansTable.tsx:66-69 | the delete request is sent; on a reply exactly the rows with other ids remain |
| PlansTable.RemoveAfterLoad | src/components/dashboard/admin/PlansTable.tsx:20-25 | after a load and a successful delete, a fetched plan is shown iff its id is not the deleted one |
| PlanEditModal.ParseFeatures | src/components/dashboard/admin/PlanEditModal.tsx:88-91 | every feature read from the input is non-empty, comma-free and trimmed |
| PlanEditModal.PrefixedFeature | src/components/dashboard/admin/PlanEditModal.tsx:25 | a feature after "" or the blank of ", " is comma-free and trims back to itself |
| PlanEditModal.DisplayUnfold | src/components/dashboard/admin/PlanEditModal.tsx:25 | the display of two or more features is the first, a comma, a blank and the display of the rest |
| PlanEditModal.PiecesUnfold | src/components/dashboard/admin/PlanEditModal.tsx:25 | splitting that display on ',' cuts off the first feature as its own piece |
| PlanEditModal.TrimAllCons | src/components/dashboard/admin/PlanEditModal.tsx:90 | trimming every piece of a list is trimming its head and then the rest |
| PlanEditModal.TrimmedPieces | src/components/dashboard/admin/PlanEditModal.tsx:88-90 | the pieces of the display, trimmed, are the features |
| PlanEditModal.FeaturesRoundTrip | src/components/dashboard/admin/PlanEditModal.tsx:25 | features that are non-empty, trimmed and comma-free read back exactly from the text the input shows |
| PlanEditModal.TypedFeaturesReachBackend | src/components/dashboard/admin/PlanEditModal.tsx:88-91 | whatever the admin types, once at least one feature is left, the CSV sent for the list splits back into that same list |
| PlanEditModal.SaveBody | src/components/dashboard/admin/PlanEditModal.tsx:112-119 | the body handed to `onSave` holds the local name, price, currency, features and active flag, with no id and no type |
| PlanEditModal.SavedBodyHasNoType | src/components/dashboard/admin/PlanEditModal.tsx:112-119 | the patch built from that body has neither an id nor a type key, and its CSV is `toCsv` of the features |
| PlanEditModal.PlanEditor.constructor | src/components/dashboard/admin/PlanEditModal.tsx:20 | the local copy starts as the `plan` prop; nothing saved, no close yet |
| PlanEditModal.PlanEditor.SetPlan | src/components/dashboard/admin/PlanEditModal.tsx:22 | a new `plan` prop resets the local copy to it |
| PlanEditModal.PlanEditor.SetOpen | src/components/dashboard/admin/PlanEditModal.tsx:23 | the `open` prop changes and the local copy stays |
| PlanEditModal.PlanEditor.EditName | src/components/dashboard/admin/PlanEditModal.tsx:48 | only the local name changes |
| PlanEditModal.PlanEditor.EditPrice | src/components/dashboard/admin/PlanEditModal.tsx:63 | only the local price changes |
| PlanEditModal.PlanEditor.EditCurrency | src/components/dashboard/admin/PlanEditModal.tsx:27-30 | only the local currency changes |
| PlanEditModal.PlanEditor.EditFeatures | src/components/dashboard/admin/PlanEditModal.tsx:85-93 | only the local features change, to the list the typed text is read as |
| PlanEditModal.PlanEditor.EditActive | src/components/dashboard/admin/PlanEditModal.tsx:101 | only the local active flag changes |
| PlanEditModal.PlanEditor.Save | src/components/dashboard/admin/PlanEditModal.tsx:111-120 | one more body, built from the local copy, is handed to `onSave`; the local copy stays |
| PlanEditModal.PlanEditor.Close | src/components/dashboard/admin/PlanEditModal.tsx:37 | `onClose` is called once more and nothing else changes |
| PlanEditModal.SaveUnedited | src/components/dashboard/admin/PlanEditModal.tsx:20-25 | opening a plan with clean features and saving at once hands back the plan's own fields, and the shown features read back as the same list |
| ReportsTable.StatusText | src/services/dashboardAdmin.ts:117 | the three statuses the service accepts, each with its own text |
| ReportsTable.WithStatus | src/components/dashboard/admin/ReportsTable.tsx:24 | the reports with that id take the new status; every other report is unchanged |
| ReportsTable.WithStatusIdempotent | src/components/dashboard/admin/ReportsTable.tsx:24 | setting the same status twice is setting it once |
| ReportsTable.WithStatusCommutes | src/components/dashboard/admin/ReportsTable.tsx:24 | statuses set on two different ids do not interfere, whatever the order |
| ReportsTable.Reports.constructor | src/components/dashboard/admin/ReportsTable.tsx:12-13 | no rows, loading, no requests |
| ReportsTable.Reports.Load | src/components/dashboard/admin/ReportsTable.tsx:15-20 | the rows become the fetched reports and loading clears; a failed fetch leaves the table loading |
| ReportsTable.Reports.SetStatus | src/components/dashboard/admin/ReportsTable.tsx:22-25 | the request is sent; the rows change only once the server has answered |
| ReportsTable.Reports.Resolve | src/components/dashboard/admin/ReportsTable.tsx:53 | the Resolve button requests "resolved" for that report |
| ReportsTable.Reports.Dismiss | src/components/dashboard/admin/ReportsTable.tsx:59 | the Dismiss button requests "dismissed" for that report |
| ReportsTable.ButtonStatus | src/components/dashboard/admin/ReportsTable.tsx:52-63 | a button never sets "open"; Resolve sets "resolved" and Dismiss "dismissed" |
| ReportsTable.ButtonsOnlyResolveOrDismiss | src/components/dashboard/admin/ReportsTable.tsx:45-66 | from the load on, the rows are the fetched reports with at most the status changed, and only to "resolved" or "dismissed" |
| PaymentsTable.InsertCounts | src/components/dashboard/admin/PaymentsTable.tsx:14 | inserting one payment adds exactly that payment |
| PaymentsTable.TailNewestFirst | src/components/dashboard/admin/PaymentsTable.tsx:14 | what follows the first payment of a sorted list is sorted |
| PaymentsTable.ConsNewestFirst | src/components/dashboard/admin/PaymentsTable.tsx:14 | a payment no earlier than every payment of a sorted list can go in front |
| PaymentsTable.InsertKeepsOrder | src/components/dashboard/admin/PaymentsTable.tsx:14 | inserting into a list sorted newest first keeps it sorted |
| PaymentsTable.SortByDateDescSorts | src/components/dashboard/admin/PaymentsTable.tsx:14 | the sorted copy is newest first and holds each fetched payment as often as fetched |
| PaymentsTable.SortedStaysPut | src/components/dashboard/admin/PaymentsTable.tsx:14 | payments already newest first keep their order, so equal dates keep the fetched order |
| PaymentsTable.Loaded | src/components/dashboard/admin/PaymentsTable.tsx:12-17 | once the payments arrive, loading clears and the rows are the fetched payments, newest first, as a permutation |
| Lex.StrLeTotal | src/components/dashboard/admin/PaymentsTable.tsx:14 | of two strings, one is at most the other in code-unit order |
| Lex.StrLeTransitive | src/components/dashboard/admin/PaymentsTable.tsx:14 | code-unit order is transitive |
| Lex.StrLeAntisymmetric | src/components/dashboard/admin/PaymentsTable.tsx:14 | two strings each at most the other are equal |
| Lex.StrLeReflexive | src/components/dashboard/admin/PaymentsTable.tsx:14 | every string is at most itself |
| AdminCharts.KeyIndex | src/components/dashboard/admin/AdminCharts.tsx:28 | the position of the key in the map, or -1 iff no entry has it |
| AdminCharts.MapGet | src/components/dashboard/admin/AdminCharts.tsx:28 | `map.get`: a value iff some entry has the key |
| AdminCharts.MapSet | src/components/dashboard/admin/AdminCharts.tsx:28 | `map.set`: an existing key is updated where it stands; a new key is appended at the end |
| AdminCharts.Accumulate | src/components/dashboard/admin/AdminCharts.tsx:26-29 | the `forEach` loop builds exactly the map the items accumulate to |
| AdminCharts.ItemKeys | src/components/dashboard/admin/AdminCharts.tsx:27 | the key of each item, in order |
| AdminCharts.KeysStep | src/components/dashboard/admin/AdminCharts.tsx:28 | one `set` keeps the keys distinct and covers the new key along with every earlier one |
| AdminCharts.ItemKeysSnoc | src/components/dashboard/admin/AdminCharts.tsx:26 | the keys of the items are those of all but the last, then the last one's |
| AdminCharts.AccumulatedCovers | src/components/dashboard/admin/AdminCharts.tsx:26-29 | the map has distinct keys, each an item's, and every item's key is in it |
| AdminCharts.AccumulatedKeys | src/components/dashboard/admin/AdminCharts.tsx:26-29 | the map has distinct keys, each an item's key, and has every item's key |
| AdminCharts.FirstOccurrenceAppend | src/components/dashboard/admin/AdminCharts.tsx:30 | appending a key does not move where an earlier key first occurs |
| AdminCharts.FirstIndexUnique | src/components/dashboard/admin/AdminCharts.tsx:30 | a position holding a key with no earlier copy is its first occurrence |
| AdminCharts.FirstIndex | src/components/dashboard/admin/AdminCharts.tsx:30 | the first position of a key that occurs |
| AdminCharts.OrderStep | src/components/dashboard/admin/AdminCharts.tsx:28 | one `set` keeps the entries in the order their keys first occur |
| AdminCharts.AccumulatedOrder | src/components/dashboard/admin/AdminCharts.tsx:30 | `map.keys()` iterates in the order the keys were first set |
| AdminCharts.AccumulatedValues | src/components/dashboard/admin/AdminCharts.tsx:28 | each entry's value is the sum of the amounts of the items with its key |
| AdminCharts.SumForAbsent | src/components/dashboard/admin/AdminCharts.tsx:28 | a key the map lacks has no item, so `get ?? 0` is its sum |
| AdminCharts.SumForNone | src/components/dashboard/admin/AdminCharts.tsx:28 | the items of a key no item has sum to 0 |
| AdminCharts.SumValuesUpdate | src/components/dashboard/admin/AdminCharts.tsx:28 | replacing one entry changes the total by the difference of its values |
| AdminCharts.AccumulatedTotal | src/components/dashboard/admin/AdminCharts.tsx:26-29 | the map's values add up to the sum of all the items |
| AdminCharts.Ones | src/components/dashboard/admin/AdminCharts.tsx:37 | each key paired with the count 1 |
| AdminCharts.OnesCount | src/components/dashboard/admin/AdminCharts.tsx:37 | counting ones per key gives how often the key occurs, and in total the number of keys |
| AdminCharts.PlansOf | src/components/dashboard/admin/AdminCharts.tsx:37 | the plan of each subscription, in order |
| AdminCharts.PlanDistributionFacts | src/components/dashboard/admin/AdminCharts.tsx:34-40 | one entry per distinct plan, in order of first occurrence, each counting the subscriptions on that plan; the counts add up to the number of subscriptions |
| AdminCharts.ReasonsOf | src/components/dashboard/admin/AdminCharts.tsx:45 | each report's reason, or "Other" when it has none |
| AdminCharts.KeysOf | src/components/dashboard/admin/AdminCharts.tsx:48 | `Array.from(map.keys())`: the keys in map order |
| AdminCharts.ValuesOf | src/components/dashboard/admin/AdminCharts.tsx:48 | `Array.from(map.values())`: the values in map order |
| AdminCharts.SumOfValues | src/components/dashboard/admin/AdminCharts.tsx:48 | the values listed add up to the map's total |
| AdminCharts.ReportsByReasonFacts | src/components/dashboard/admin/AdminCharts.tsx:42-49 | as many counts as categories, each the number of reports with that reason; "Other" appears when a report has no reason; the counts add up to the number of reports |
| AdminCharts.CountedPayments | src/components/dashboard/admin/AdminCharts.tsx:25 | exactly the payments that are "PAID" and in "USD" |
| AdminCharts.MonthKey | src/components/dashboard/admin/AdminCharts.tsx:27 | `slice(0, 7)`: the first seven characters, or the whole date when shorter |
| AdminCharts.RevenueItems | src/components/dashboard/admin/AdminCharts.tsx:25-28 | for each counted payment, in order, its month and amount |
| AdminCharts.InsertAscCounts | src/components/dashboard/admin/AdminCharts.tsx:30 | inserting one month adds exactly that month |
| AdminCharts.StrLtTransitive | src/components/dashboard/admin/AdminCharts.tsx:30 | strict code-unit order is transitive |
| AdminCharts.ConsAscending | src/components/dashboard/admin/AdminCharts.tsx:30 | a month before every month of an ascending list can go in front |
| AdminCharts.InsertAscStrict | src/components/dashboard/admin/AdminCharts.tsx:30 | inserting a new month keeps a strictly ascending list strictly ascending |
| AdminCharts.SortAscSorts | src/components/dashboard/admin/AdminCharts.tsx:30 | the default sort of distinct keys is strictly ascending and a permutation |
| AdminCharts.LastSix | src/components/dashboard/admin/AdminCharts.tsx:30 | `slice(-6)`: the whole list when it has at most six months, else its last six |
| AdminCharts.LastSixFacts | src/components/dashboard/admin/AdminCharts.tsx:30 | the last six of an ascending list are ascending, are months of the list, and each month left out is before all six |
| AdminCharts.RevenueKeys | src/components/dashboard/admin/AdminCharts.tsx:24-29 | the map's keys are distinct and are exactly the months of the counted payments |
| AdminCharts.RevenueMonthsFacts | src/components/dashboard/admin/AdminCharts.tsx:30 | at most six months, strictly ascending, all in the map; a counted payment's month is shown unless six later months are |
| AdminCharts.RevenueDataFacts | src/components/dashboard/admin/AdminCharts.tsx:31 | one figure per month, each the sum of the counted amounts of that month |
| AdminCharts.RevenueByMonthFacts | src/components/dashboard/admin/AdminCharts.tsx:22-32 | categories and data have the same length, at most six; the categories ascend and each is the month of a counted payment; a counted month is shown unless six later ones are; each figure sums that month's counted amounts |
| AdminCharts.RevenueIgnoresUncounted | src/components/dashboard/admin/AdminCharts.tsx:25 | adding a payment that is not "PAID" in "USD" leaves the chart as it was |
| AdminCharts.NewUsersByMonth | src/components/dashboard/admin/AdminCharts.tsx:51-55 | the new-users chart is always empty |
| Base.Lower | src/components/dashboard/admin/PlansTable.tsx:32 | ASCII lower-casing, character by character, same length |
| Base.Trim | src/services/dashboardAdmin.ts:89 | no blank at either end is left; the result is empty iff the text is blank; a text already without outer blanks is kept |
| Base.TrimStartDrops | src/services/dashboardAdmin.ts:89 | the leading part cut off is blank and what is left starts with a non-blank |
| Base.TrimEndDrops | src/services/dashboardAdmin.ts:89 | the trailing part cut off is blank and what is left ends with a non-blank |
| Base.ContainsAt | src/components/dashboard/admin/PlansTable.tsx:34 | `includes` holds iff the text occurs at some position |
| Base.SplitAvoids | src/components/dashboard/admin/PlanEditModal.tsx:89 | no piece of a split holds a separator |
| Base.JoinSplit | src/components/dashboard/admin/PlanEditModal.tsx:89 | joining the pieces of a split with the same character gives back the text |
| Base.SplitJoin | src/services/dashboardAdmin.ts:89 | splitting pieces joined by a separator they avoid gives back the pieces |
| Base.NonEmptyFilters | src/services/dashboardAdmin.ts:89 | `filter(Boolean)` keeps only non-empty items, each one of the input |
| Base.Filter | src/components/dashboard/admin/AdminCharts.tsx:25 | keeps exactly the elements that satisfy the test, and everything when all do |
| Base.FilterAppend | src/components/dashboard/admin/AdminCharts.tsx:25 | filtering a concatenation is concatenating the filtered parts |
| Base.FilterSubseq | src/components/dashboard/admin/PlansTable.tsx:34 | a filter keeps the order of what it keeps |
| Base.NatToStringRoundTrip | src/services/pins.services.ts:69 | the decimal text of a number reads back as that number |

## Findings

| source | as written | input that shows it | evidently intended | confidence | as-written member | corrected member |
|---|---|---|---|---|---|---|
| src/components/pins/PinModal.tsx:99-113 | the success toast is shown before the answer is looked at; `addComment` returns `undefined` on failure instead of throwing | a comment the backend refuses with 403 (daily limit): "comment made successfully" is shown, and the limit message never is | success toast only for a stored comment; the 403 limit message or the generic error otherwise | not executed | PinModal.CommentFailureShownAsSuccess | PinModal.CommentToastsIntendedClassify |
| src/components/pins/PinModal.tsx:117-129 | `reportTarget` returns `null` on failure instead of throwing, so the handler always shows the success toast and closes the menu | any report whose POST fails: "Reporte enviado con éxito" is shown and the reason is cleared | the error toast, with the menu and reason kept, when the report was not accepted | not executed | PinModal.ReportFailureShownAsSuccess | PinModal.ReportToastsIntendedClassify |
| middleware.ts:25-29 | a signed-in non-admin on /dashboard/admin is sent to "/dashboadrd" | cookies `auth_token=t`, `role=user`, path /dashboard/admin: the redirect goes to a path outside the matcher that no page serves | the redirect goes to /dashboard, which the guard passes for that visitor | not executed | Middleware.NonAdminTargetUncovered | Middleware.DecideIntendedLands |

## Left out

- Dates: `toISOString`, `new Date(...)`, `toLocaleDateString` and `Date.parse` are not modelled. The current time and formatted labels are parameters holding already-computed strings, and a backend user's `createdAt` is held as `toIsoStringSafe` converts it.
- JSON: `JSON.parse` and `JSON.stringify` of the stored user are a codec given to the auth provider. The only assumption is that a written user reads back.
- Encodings: `encodeURIComponent` and the SVG text of the placeholder avatar are a parameter function.
- Browser APIs: `FileReader` and `URL.createObjectURL` are parameters or recorded state. The preview text they produce is not computed.
- Numbers: prices and amounts, in the admin tables and in the dashboard's subscription and payment history alike, are exact `real`. Binary floating point, `toFixed(2)` on the chart figures, and `Number(...)` parsing of a price sent as text are not modelled. A fetched price is taken as already numeric.
- `localeCompare` and the default `sort()` are plain code-unit order (`Lex.StrLe`). Locale collation is not modelled.
- `toLowerCase` and `toUpperCase` are modelled on ASCII letters only. Whitespace for `trim` and `\s` is the ASCII set.
- The hashtag regex `[\s,]+` is modelled as splitting on single separators. Both forms drop the empty pieces, so the tags are the same.
- Concurrency and timing: React's batching, effects running twice, `Promise.all`, unmounting mid-request and the `cancelled` flag of the bootstrap are not modelled. Each handler runs to completion with its replies given in advance.
- The second fetch of the Google login flow and the OAuth redirect itself are not modelled.
- `Headers` case normalisation is not modelled. A header name is matched exactly.
- `src/services/dashboard.ts` shares the base-URL and token logic of `src/lib/api.ts`, and the model uses `Api.BaseUrl` and `Api.DecorateRequest` for both.
- Counters the backend may send as non-numbers are `Option<int>`. `None` stands for any value that is not a number.
- Rendering: JSX, styling and layout are not modelled. Neither are the components with no logic of their own: PostCard, SubscriptionsTable, AdminProfileCard, AdminView, Home, the Subscriptions checkout page and next.config.
- Pass-through service calls are not modelled as operations: `fetchAdminOverview`, `fetchAdminUsers`, `fetchAdminSubscriptions`, `setAdminUserStatus` and `setAdminUserRole` just return the backend's data.
- `toggleAdminPlan` and `deleteAdminPlan` are their replies in the plans table.
- PlansTable.ApplyPatch: the reply is a record with optional fields. A field the reply carries with the value `undefined` is treated as absent, though the spread would copy it.
- UploadPin.RunSteps: the Cloudinary signature, upload and `savePin` calls are abstract steps with given replies. The multipart body is not modelled.
- AdminCharts.MapGet: `map.get(key) ?? 0` is modelled on exact reals, so a sum never loses precision.
