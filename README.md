# CodeCure frontend core, modelled in Dafny

This project models the logic at the core of the CodeCure patient app, a React Native
client for a medical back end. The model covers five parts:

- **App** (`app.dfy`), the single-file demo app. It covers:
  - swipe navigation over the fixed screen order, including the `indexOf` = -1 case that
    sends a left swipe from the welcome or login screen straight to the dashboard;
  - the ±50-point pan threshold;
  - the login guard;
  - the in-memory issue list, whose guard is `trim`;
  - the translation lookup with its fall-back to the key;
  - the screen dispatch, whose default is the welcome screen.
- **Registration** (`register.dfy`), the registration screen. It covers:
  - the validation order: required fields, then password confirmation, then a duplicate
    e-mail compared case-insensitively against the users stored on the device;
  - the creation of the `u_<timestamp>` user record;
  - the three storage writes that sign the user in, of which the root layout reads `user_authenticated`;
  - the loading flag.
- **Api** (`api.dfy`), the REST client. It covers:
  - the stored bearer token;
  - the "No authentication token found" guard;
  - request URLs and headers;
  - the multipart forms, with their optional fields and default file types and names;
  - the error message rule: the server's `error` field, else `HTTP error! status: N`.
- **Locale** (`locale.dfy`), the i18n module. It covers:
  - the start-up locale, restricted to en, hi and pa with English as the fall-back;
  - `setLocale` and the listener set it notifies. Notification stops at the first
    listener that throws, and the exception is swallowed;
  - module initialisation, which calls `setLocale` before the listener set is declared.
    The resulting error is swallowed, and the system locale is still applied.
- **Profile** (`profile.dfy`), the profile context. It covers:
  - loading the profile through the API, keeping the old profile on failure;
  - the loading flag;
  - the local change of the profile picture.

`common.dfy` holds what the parts share:

- optional values;
- JavaScript truthiness of optional strings and the `||` fall-back;
- `Array.prototype.indexOf`;
- decimal rendering of integers, with its inverse.

Where the source changes state step by step, the model is imperative:

- A component's `useState` hooks become the fields of a class. So do the device store
  (AsyncStorage), the API service's token store and the i18n module's state.
- Each handler is a method that says exactly what it changes. It is proved against a
  pure function, and the lemmas are stated about that function.

The model has no network and no clock:

- An HTTP exchange is a `Reply` value, standing for what the server answers.
- Every API method also returns the request it would send.
- `Date.now()`, the formatted date, the device's locale list and storage failures are
  parameters.

## Model

| member | source | states |
|---|---|---|
| Common.OrElse | src/services/apiService.ts:173 | `a \|\| b` on an optional string: the value when it is a non-empty string, the fall-back otherwise |
| Common.IndexOf | App.tsx:174 | `indexOf`: -1 exactly when absent; otherwise the position of the first occurrence |
| Common.IndexOfDistinct | App.tsx:171-174 | in a list without repeats, the index of the k-th element is k |
| Common.DecimalString | app/auth/register.tsx:61 | the decimal text of a timestamp is non-empty, all digits, and has no leading zero |
| Common.DecimalRoundTrip | app/auth/register.tsx:61 | parsing the decimal text of n gives back n |
| Common.DecimalInjective | app/auth/register.tsx:61 | different timestamps give different texts |
| App.ScreenOrderDistinct | App.tsx:171 | the swipe order lists each screen once |
| App.NextScreen | App.tsx:173-178 | a left swipe always lands on a screen of the order |
| App.PrevScreen | App.tsx:180-185 | a right swipe lands on a screen of the order or stays put |
| App.NextScreenAdvances | App.tsx:173-178 | a left swipe moves from screen k to screen k+1 |
| App.NextScreenStopsAtLast | App.tsx:175 | a left swipe on the last screen does nothing |
| App.NextScreenOutsideOrder | App.tsx:174-176 | from any screen outside the order (welcome, login) a left swipe opens the dashboard |
| App.PrevScreenRetreats | App.tsx:180-185 | a right swipe moves from screen k to screen k-1 |
| App.PrevScreenStaysPut | App.tsx:182 | a right swipe on the first screen or outside the order does nothing |
| App.SwipeLeftThenRight | App.tsx:171-185 | within the order, a right swipe undoes a left swipe |
| App.SwipeRightThenLeft | App.tsx:171-185 | within the order, a left swipe undoes a right swipe |
| App.GestureSwipe | App.tsx:187-196 | only a finished pan swipes: right exactly when it travels more than 50, left exactly when less than -50 |
| App.TrimStart | App.tsx:218 | removes exactly the leading white space |
| App.TrimEnd | App.tsx:218 | removes exactly the trailing white space |
| App.Trim | App.tsx:218 | `trim`: empty exactly when the text is blank; otherwise neither end is white space |
| App.TrimEmptyIffBlank | App.tsx:218 | the trimmed text is empty exactly when the text is empty or all white space |
| App.Translate | App.tsx:168 | the table entry for the language and key when it is non-empty; otherwise the key |
| App.TranslateNeverEmpty | App.tsx:168 | a non-empty key never yields an empty label |
| App.RenderedView | App.tsx:650-661 | a known screen name draws the view of that name; any other name draws the welcome screen |
| App.ScreenName | App.tsx:651-659 | every view's name is one of the switch's case labels |
| App.RenderRoundTrip | App.tsx:650-661 | each view is drawn for its own screen name |
| App.RenderUnknownIsWelcome | App.tsx:660 | an unknown screen name draws the welcome screen |
| App.SwipeScreensRender | App.tsx:650-661 | every screen of the swipe order has its own view, not the welcome fall-back |
| App.AppState.constructor | App.tsx:39-45 | starts on the welcome screen, empty fields and no issues, dark mode, English |
| App.AppState.HandleSwipeLeft | App.tsx:173-178 | the screen becomes NextScreen of the old screen |
| App.AppState.HandleSwipeRight | App.tsx:180-185 | the screen becomes PrevScreen of the old screen |
| App.AppState.OnGestureEvent | App.tsx:187-196 | swipes right or left as GestureSwipe decides, otherwise keeps the screen |
| App.AppState.HandleLogin | App.tsx:208-215 | opens the dashboard when e-mail and password are non-empty, otherwise changes nothing |
| App.AppState.HandleSubmitIssue | App.tsx:217-223 | blank text changes nothing; other text is appended untrimmed with the given id and date, and the input is cleared |
| App.AppState.T | App.tsx:168 | a non-empty key never yields an empty label |
| Registration.Validate | app/auth/register.tsx:40-48 | rejects missing fields first, then a password mismatch, and passes exactly the filled, matching forms |
| Registration.LowerChar | app/auth/register.tsx:54 | maps A-Z to a-z and keeps every other character |
| Registration.ToLower | app/auth/register.tsx:54 | lower-cases character by character, keeping the length |
| Registration.ToLowerIdempotent | app/auth/register.tsx:54 | lower-casing twice is lower-casing once |
| Registration.EmailTaken | app/auth/register.tsx:54 | taken exactly when some stored user's e-mail equals the address ignoring case |
| Registration.NewUser | app/auth/register.tsx:60-68 | id is `u_` and the digits of the timestamp, which read back as the timestamp; form fields copied; the default avatar |
| Registration.AppendKeepsEmailsDistinct | app/auth/register.tsx:54-69 | appending a user whose e-mail is not taken keeps the stored e-mails distinct up to case |
| Registration.RegisteredEmailIsTaken | app/auth/register.tsx:54-69 | after the append, the same e-mail in any case is taken |
| Registration.OrEmpty | app/auth/register.tsx:52 | a missing users list reads as empty |
| Registration.RegisterScreen.constructor | app/auth/register.tsx:21-31 | an empty form, not loading |
| Registration.RegisterScreen.HandleRegister | app/auth/register.tsx:37-81 | on every path, the outcome and each storage key; loading false after validation; a registered user is authenticated for the root layout |
| Registration.SuccessfulRegistration | app/auth/register.tsx:52-72 | a registration grows the list by one, keeps the earlier users, keeps e-mails distinct, and makes a repeat a duplicate |
| Api.Url | src/services/apiService.ts:160 | the base URL followed by the endpoint |
| Api.AuthHeaders | src/config/apiConfig.ts:23-26 | the bearer header for the token and the JSON content type, nothing else |
| Api.MultipartAuthHeaders | src/config/apiConfig.ts:28-30 | the JSON headers for the token without the content type |
| Api.JsonRequest | src/services/apiService.ts:156-181 | the URL, verb and body as given; the caller's headers override the JSON content type |
| Api.MultipartRequest | src/services/apiService.ts:183-211 | the form as body and the bearer header alone |
| Api.ErrorMessage | src/services/apiService.ts:171-174 | the server's `error` field when it is a non-empty string, else `HTTP error! status: ` and more |
| Api.ErrorMessageCarriesStatus | src/services/apiService.ts:173 | without a server message, the status code reads back from the message |
| Api.Outcome | src/services/apiService.ts:171-180 | success with the payload exactly on an ok response; otherwise the error message or the transport failure |
| Api.DownloadOutcome | src/services/apiService.ts:331-338 | success exactly on an ok response; a non-ok response always reports its status; a transport failure is passed on with its own message |
| Api.FilePartOf | src/services/apiService.ts:264-268 | the file part keeps the URI and uses the default type and name for missing ones |
| Api.FieldNamed | src/services/apiService.ts:255-268 | the first field with that name (no earlier field has it), none exactly when no field has it |
| Api.PresentAllNone | src/services/apiService.ts:349-356 | with no present value the form is empty |
| Api.PresentFieldNamed | src/services/apiService.ts:255-268 | appending in a fixed order of distinct names makes the field under each name that slot's field |
| Api.PresentFollowsOrder | src/services/apiService.ts:255-268 | the form's field names follow the append order |
| Api.IssueForm | src/services/apiService.ts:349-359 | every field of the issue form is one of text, language_code and audio |
| Api.IssueFormContents | src/services/apiService.ts:349-358 | text and language_code are sent exactly when non-empty, audio exactly when given, with defaults and in order; with none the form is empty |
| Api.ProfileForm | src/services/apiService.ts:255-269 | every field of the profile form is one of the seven profile field names |
| Api.ProfileFormContents | src/services/apiService.ts:255-268 | each of the six text fields is sent exactly when non-empty, and the image exactly when given, with defaults and in order |
| Api.BuildProfileForm | src/services/apiService.ts:255-269 | the appends of `updateProfile`, in their order, build exactly ProfileForm |
| Api.BuildIssueForm | src/services/apiService.ts:349-359 | the appends of `submitIssue`, in their order, build exactly IssueForm |
| Api.ReportForm | src/services/apiService.ts:292-297 | exactly one file part, typed application/pdf and named report.pdf by default |
| Api.AppendText | src/services/apiService.ts:257 | appends the field exactly when the value is a non-empty string |
| Api.AppendFile | src/services/apiService.ts:263-269 | appends the file part exactly when a file is given |
| Api.TokenIn | src/services/apiService.ts:131-138 | the stored token when the store is readable and holds one, otherwise none |
| Api.SignedIn | src/services/apiService.ts:380-383 | signed in exactly when the store is readable and holds a non-empty token |
| Api.TokenLifecycle | src/services/apiService.ts:221-234 | after login the user is signed in exactly when the token is non-empty; after logout, or when storage fails, signed out |
| Api.ApiService.constructor | src/services/apiService.ts:130 | the given store and storage state |
| Api.ApiService.GetToken | src/services/apiService.ts:131-138 | the stored token; none when the store throws |
| Api.ApiService.SetToken | src/services/apiService.ts:140-146 | stores the token; a throwing store is left unchanged |
| Api.ApiService.ClearToken | src/services/apiService.ts:148-154 | removes the token; a throwing store is left unchanged |
| Api.ApiService.Register | src/services/apiService.ts:214-219 | POSTs the JSON registration data to /register; the result follows Outcome |
| Api.ApiService.Login | src/services/apiService.ts:221-230 | POSTs the credentials to /login; stores the returned token on success only |
| Api.ApiService.Logout | src/services/apiService.ts:232-234 | removes the token |
| Api.ApiService.GetProfile | src/services/apiService.ts:237-247 | without a token, fails with the no-token message and sends nothing; otherwise an authorised GET |
| Api.ApiService.UpdateProfile | src/services/apiService.ts:249-276 | without a token, fails and sends nothing; otherwise PUTs the profile form with the bearer header, whose token is empty when the second token read throws |
| Api.ApiService.GetEvents | src/services/apiService.ts:279-283 | an unauthenticated GET of /events |
| Api.ApiService.UploadReport | src/services/apiService.ts:286-303 | without a token, fails and sends nothing; otherwise POSTs the report form, the bearer token empty when the second token read throws |
| Api.ApiService.GetReports | src/services/apiService.ts:305-315 | without a token, fails and sends nothing; otherwise an authorised GET |
| Api.ApiService.DownloadReport | src/services/apiService.ts:317-340 | without a token, fails and sends nothing; otherwise GETs the download URL for the file name |
| Api.ApiService.SubmitIssue | src/services/apiService.ts:343-365 | without a token, fails and sends nothing; otherwise POSTs the issue form, the bearer token empty when the second token read throws |
| Api.ApiService.GetIssues | src/services/apiService.ts:367-377 | without a token, fails and sends nothing; otherwise an authorised GET |
| Api.ApiService.IsAuthenticated | src/services/apiService.ts:380-383 | true exactly when a non-empty token is stored and readable |
| Locale.Code | src/i18n/index.ts:8 | each supported locale has its own code among en, hi and pa |
| Locale.FromCode | src/i18n/index.ts:17 | accepts exactly en, hi and pa, as the inverse of Code |
| Locale.CodeRoundTrip | src/i18n/index.ts:17 | every supported locale passes the whitelist as itself |
| Locale.SystemLocale | src/i18n/index.ts:14-21 | the first preferred language when it is supported; English in every other case |
| Locale.Notified | src/i18n/index.ts:26 | the listeners called are a prefix of the set in insertion order that ends at the first throwing listener |
| Locale.NotifiedAll | src/i18n/index.ts:26 | when no listener throws, all are called |
| Locale.NotifiedStopsAtThrow | src/i18n/index.ts:26 | the first throwing listener is the last one called |
| Locale.Deliveries | src/i18n/index.ts:26 | each called listener receives the new locale |
| Locale.Added | src/i18n/index.ts:43 | adding a present listener keeps the set; a new one goes last |
| Locale.Removed | src/i18n/index.ts:44 | removes exactly that listener |
| Locale.RemovedAbsent | src/i18n/index.ts:44 | deleting an absent listener changes nothing |
| Locale.RemovedConcat | src/i18n/index.ts:44 | deletion keeps the order of the others |
| Locale.RemovedKeepsDistinct | src/i18n/index.ts:44 | deletion keeps the set free of duplicates |
| Locale.SubscribeTwice | src/i18n/index.ts:43 | subscribing twice is subscribing once |
| Locale.UnsubscribeUndoesSubscribe | src/i18n/index.ts:42-45 | unsubscribing a fresh listener restores the set exactly |
| Locale.LocaleRegistry.Load | src/i18n/index.ts:29-41 | initialisation applies the system locale despite the swallowed error, with no listener called and an empty set |
| Locale.LocaleRegistry.SetLocale | src/i18n/index.ts:23-27 | sets the locale, then logs exactly the Notified listeners receiving it; none before the set is declared |
| Locale.LocaleRegistry.Subscribe | src/i18n/index.ts:42-43 | on a duplicate-free set, the set becomes Added and stays duplicate-free |
| Locale.LocaleRegistry.Unsubscribe | src/i18n/index.ts:44 | on a duplicate-free set, reports whether the listener was present; the set becomes Removed and stays duplicate-free |
| Profile.WithImage | src/context/ProfileContext.tsx:46-56 | sets the picture and keeps every other field |
| Profile.WithImageIdempotent | src/context/ProfileContext.tsx:46-56 | setting the same picture twice is setting it once |
| Profile.WithImageLastWins | src/context/ProfileContext.tsx:46-56 | only the last picture set counts |
| Profile.UpdatedProfile | src/context/ProfileContext.tsx:46-56 | no profile stays no profile; otherwise WithImage |
| Profile.AfterLoad | src/context/ProfileContext.tsx:29-40 | the fetched profile on success, the held one on failure |
| Profile.LoadKeepsProfile | src/context/ProfileContext.tsx:29-40 | a failed load never loses a loaded profile; there is no profile only if none was held and the load failed |
| Profile.ProfileProvider.constructor | src/context/ProfileContext.tsx:26-27 | no profile, loading |
| Profile.ProfileProvider.LoadProfile | src/context/ProfileContext.tsx:29-40 | loading ends false; the profile is AfterLoad of the API's result; kept without a token |
| Profile.ProfileProvider.RefreshProfile | src/context/ProfileContext.tsx:42-44 | the same as LoadProfile |
| Profile.ProfileProvider.UpdateProfileImage | src/context/ProfileContext.tsx:46-56 | the profile becomes UpdatedProfile of the old one |

## Left out

- Rendering, styles, alerts, console logging (`console.error`), the theme provider, the logo and navigation (`router.replace`).
  The root layout (app/_layout.tsx) appears only as the predicate
  `Registration.RootAuthenticated`, the condition under which it opens the tabs.
- The contents of the translation tables in App.tsx and of the locale JSON files. The
  tables are a parameter of `App.Translate`.
- `t` of src/i18n/index.ts: it delegates to the i18n-js library, which is not part of this
  model.
- The outer `catch` of the i18n module initialisation (src/i18n/index.ts:32-35). The
  assignment `i18n.locale = locale` (src/i18n/index.ts:24) sits outside `setLocale`'s
  `try`; the outer catch is unreachable only because assigning a string locale does not
  throw, and the model takes that assignment as infallible.
- The set mutating while it is notified: a listener is only "throws" or "returns", so
  listeners that subscribe or unsubscribe during `forEach` are not modelled.
- JSON encoding and decoding, `fetch`, `FormData` and AsyncStorage internals:
  - Storage is a map or an optional value.
  - A JSON body is a datatype of what it serialises.
  - A server answer is a `Reply`.
  - A reply that is ok but whose JSON cannot be parsed is not modelled.
  - In registration, an unreadable or unparsable users list is the `ReadFails` fault.
- `Date.now()` and `toLocaleDateString()` are parameters. Nothing makes two timestamps
  differ, so ids created within the same millisecond can repeat.
- Concurrency: the handlers are async and their steps could interleave. Each method
  runs to completion here. Stale captured state in React closures is not modelled.
- The `useProfile` hook's error outside a provider, and the provider's mount effect
  (the model calls `LoadProfile` explicitly).
- Registration.ToLower: lower-cases ASCII letters only, while `toLowerCase` also maps
  other Unicode upper-case letters, so the duplicate check is weaker for non-ASCII
  addresses.
- Registration.LowerChar: maps only A-Z; a non-ASCII upper-case letter such as 'Ä' is
  kept, where `toLowerCase` would lower-case it.
- Api.ApiService: a failing store is a per-service flag (`storageUp`), so the guard's
  token read and every other store call succeed or throw together. The one exception
  is the second token read of the multipart helper (src/services/apiService.ts:196).
  It is the `rereadFails` parameter of UpdateProfile, UploadReport and SubmitIssue.
  A store that changes between the two reads, for example through a concurrent logout,
  is not modelled.
- Api.Profile: the server's `age` is a JavaScript number; it is an integer here.
- The issue screen's offline queue (app/(tabs)/submit.tsx:15-28): issues are appended to
  a JSON list under the storage key `offline_issue_queue_v1` and taken all at once (the
  list reset to empty) when the network reports a connection (lines 41-51). They are then
  sent through a local stub that waits 500 ms and always reports success (lines 30-33), not
  through the API service. Its audio recording (lines 71-86) is not modelled either.
- The settings screen's sign-out (app/(tabs)/settings.tsx:29): it removes only
  `user_authenticated` and does not call the API service's logout, so `access_token` stays
  stored. It is not part of this model.
- The profile screen reading the stored user `current_user_v1` directly
  (app/(tabs)/profile.tsx:22). It is not part of this model.
- The other screens under app/(tabs) and app/auth besides registration.
