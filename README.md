# BeCalm mobile: session, backend and screen-state model in Dafny

This project models the client-side core of the BeCalm React Native app.

- **Backend locator** (`ApiConfig`): an ordered list of candidate backends and a mutable base URL. `findWorkingBackend` probes the candidates in order. It pins the first healthy one, or the first candidate when none answers.
- **Auth session manager** (`AuthService`): covers four areas.
  - Login, with its unreachable demo branch and its error-message mapping.
  - Registration.
  - Logout, and the three session keys `access_token`, `token_type` and `backend_url`.
  - Token liveness from the `exp` claim (section 4.1.4 of RFC 7519), and the bearer header.
- **HTTP request core** (`ApiService`): one fetch per call, with the auth headers merged under the caller's. It classifies the status: a 401 tears down the session and then throws, any other non-ok status throws, and an ok status returns the body. The verb wrappers and the domain facades sit on top.
- **Onboarding flow** (`OnboardingService`): the `onboarding_session_id` key is written by `startOnboarding` and removed by a successful `completeRegistration`. The four fire-and-forget save steps sit between them, followed by the welcome message.
- **Screen state machines**:
  - Diary list: prepend, delete, and persist only while non-empty (`DiarioVivoScreen`).
  - Dialogue: one user message, then one AI message, per send (`DialogoSagradoScreen`).
  - The silence and meditation countdowns and `formatTime` (`Countdown`, `SilencioSagradoScreen`, `MeditaConmigoScreen`).
  - Validation and autofill in the login, personal-data and onboarding-register screens.

Shared vocabulary:

- `Js`: JavaScript values, truthiness, `||` defaults, exceptions, `trim`, `split`, and number-to-text conversion.
- `Text`: decimal digits and `padStart(2, '0')`, with their parse-back.
- `Http`: requests, responses, and the `Network` object.
- `Storage`: the `AsyncStorage` object, over a `map<string, string>`.

Every service is a class that holds references to the shared `Config`, `AsyncStorage` and `Network` objects. Each screen is a class whose fields are its React state.

## How I/O is modelled

These parts are modelled as follows:

- **The backend** is a fixed function from request to outcome (`Network.server`). The outcome is either an answer with status, reason phrase, parsed JSON body and text, or a rejected fetch.
- **Every fetch** is appended to `Network.log`. This lets contracts say how many requests were sent, and which ones: for example, that no candidate after the first healthy one is probed.
- **Screens** receive the outcome of each service call they await as a parameter (`Outcome<Value>`). The same goes for the clock (`Date.now()`, ISO timestamps), the random fallback pick, the answer to each confirmation `Alert`, `JSON.stringify`/`JSON.parse`, `atob`, and date-fns `isValid(parse(...))`.
- **Methods** are stated against pure functions of the old state and those parameters (`Effect`, `LoginAfterFetch`, `Classify`, `StoreAfter`, `Autofill`, `Countdown.Tick`, `RemoveById`, …). The lemmas are about those functions.

Behaviour of the code worth noting:

- **checkHealth**: `checkHealth` compares the locator's result with `null` (src/services/authService.ts:164-165). The locator always returns a string, so `checkHealth` is always true. The demo branch of `login` (authService.ts:40-44) can therefore never run. `AuthService.AuthService.Login` proves the branch dead, and every login sends the `/token` POST after the probes. `DemoLogin` is still modelled on its own as a function.
- **getWelcomeMessage**: it makes no session check. With no stored session id it still sends the request, with `session_id: null`, and does not fail fast. The same holds for the four save steps.
- **Welcome error message**: a failing `getWelcomeMessage` reports the status and the raw body text. It does not report a `detail` field.
- **Login errors**: the status-based messages (404, 401, others) are used only when the error body cannot be read as JSON, or is null. A readable body gives its `detail`, or `'Credenciales incorrectas'`.

## Model

| member | source | states |
|---|---|---|
| ApiConfig.ConfigAuthHeaders | src/config/api.ts:36-39 | the configuration's own auth headers are exactly the two JSON default headers, with no Authorization entry |
| ApiConfig.FirstHealthy | src/config/api.ts:72-81 | the index found has no healthy candidate before it, and is healthy itself unless it is past the end |
| ApiConfig.Resolve | src/config/api.ts:69-86 | the pinned URL is a member of the list; it is the first healthy candidate when there is one, otherwise the first candidate |
| ApiConfig.ProbesSent | src/config/api.ts:72-81 | one health probe per candidate in list order, up to and including the first healthy one and none after it; all of them when none is healthy |
| ApiConfig.ResolveOnlyHealthy | src/config/api.ts:72-80 | when exactly candidate k is healthy, the locator pins candidate k after k + 1 probes |
| ApiConfig.ResolveNoneHealthy | src/config/api.ts:83-85 | when no candidate is healthy, every candidate is probed and the first is pinned |
| ApiConfig.FirstHealthyAt | src/config/api.ts:74-80 | a healthy candidate with no healthy one before it is the one found |
| ApiConfig.FirstHealthyNone | src/config/api.ts:83-85 | with no healthy candidate the search runs to the end of the list |
| ApiConfig.Config.TestBackend | src/config/api.ts:42-66 | exactly one GET of `url + "/health"` with the default headers; true iff that fetch answered with an ok status, false for a non-ok status or a rejection, never an error |
| ApiConfig.Config.FindWorkingBackend | src/config/api.ts:69-86 | the returned URL equals the new base URL and `Resolve` of the candidates; the requests sent are exactly `ProbesSent` |
| AuthService.DemoLogin | src/services/authService.ts:18-33 | succeeds iff username and password are both "demo", with token "demo-token" and type "bearer"; anything else throws the demo-mode error |
| AuthService.StatusMessage | src/services/authService.ts:64-70 | 404, 401 and any other status map to their three messages, the last naming the status |
| AuthService.LoginErrorMessage | src/services/authService.ts:58-73 | a readable non-null error body gives its truthy `detail`, else "Credenciales incorrectas"; only an unreadable or null body falls back to the status mapping |
| AuthService.WrapLoginError | src/services/authService.ts:83-88 | a TypeError that mentions fetch becomes "No se puede conectar al servidor: " plus the base URL; any other error passes through unchanged |
| AuthService.LoginSuccess | src/services/authService.ts:75-82 | login succeeds iff the response is ok and carries string `access_token` and `token_type`; it then returns the data, stores token, type and base URL, and keeps every other key |
| AuthService.LoginFailure | src/services/authService.ts:58-82 | a failed login changes no key, except a token already written before a non-string type stops the writes; a non-ok status throws `LoginErrorMessage` and stores nothing |
| AuthService.LoginUnreachable | src/services/authService.ts:84-86 | a rejected fetch with a fetch TypeError ends as the "cannot connect" error with the store unchanged |
| AuthService.FullNameOrEmpty | src/services/authService.ts:101 | an absent full name is sent as the empty string, a present one as given |
| AuthService.RegisterResult | src/services/authService.ts:105-113 | an ok status returns the body; a non-ok status throws truthy `detail` or "Error al registrar usuario"; transport and parse errors propagate; success implies an ok answer |
| AuthService.PayloadSegment | src/services/authService.ts:139 | the text between the first and second dot, or "undefined" for a token without a dot |
| AuthService.IsLive | src/services/authService.ts:133-146 | no token or an empty one is not live; otherwise live iff the payload decodes, parses, has `exp`, and `exp` is after now; every failure gives false |
| AuthService.LivenessByExpiry | src/services/authService.ts:139-141 | for a readable integer `exp`, live iff exp * 1000 is strictly greater than now in milliseconds |
| AuthService.AuthHeaders | src/services/authService.ts:148-157 | the default headers always, plus `Authorization: Bearer <token>` iff the stored token is non-empty, and no other key |
| AuthService.AuthService.CheckHealth | src/services/authService.ts:162-170 | always true; the base URL becomes `Resolve` of the candidates after exactly the probes `ProbesSent` |
| AuthService.AuthService.Login | src/services/authService.ts:35-89 | after the probes, exactly one `/token` POST to the pinned URL; the outcome and the new store are `LoginAfterFetch` of its answer; the demo branch is unreachable |
| AuthService.AuthService.Register | src/services/authService.ts:91-114 | exactly one `/register` POST and the outcome is `RegisterResult` of its answer; the store is not touched |
| AuthService.AuthService.Logout | src/services/authService.ts:116-122 | the store loses exactly the three session keys |
| AuthService.AuthService.GetToken | src/services/authService.ts:124-131 | returns what is stored under `access_token`, or none |
| AuthService.AuthService.IsAuthenticated | src/services/authService.ts:133-146 | the result is `IsLive` of the stored token at the given time; false when no token is stored |
| AuthService.AuthService.GetAuthHeaders | src/services/authService.ts:148-157 | `AuthHeaders` of the stored token; Authorization present iff a non-empty token is stored |
| ApiService.MergeHeaders | src/services/apiService.ts:21-29 | keys of both maps; every caller header wins; every other auth header is kept |
| ApiService.CoreRequest | src/services/apiService.ts:17-32 | the URL is base URL plus endpoint; the method defaults to GET; the body is the caller's; the headers are the auth headers merged under the caller's |
| ApiService.Classify | src/services/apiService.ts:31-53 | a rejection rethrows unchanged; a non-ok status throws "HTTP <status>: <statusText>"; an ok status returns the parsed body; success iff ok with a JSON body |
| ApiService.StoreAfter | src/services/apiService.ts:35-39 | status 401 removes all three session keys; any other outcome leaves the store as it was |
| ApiService.UnauthorizedDropsBearer | src/services/apiService.ts:35-40 | after a 401 the call has thrown and the next request carries no Authorization header |
| ApiService.HistoryEndpoint | src/services/apiService.ts:92-94 | the history endpoint followed by `?days=`, then all decimal digits that read back as the day count |
| ApiService.ApiService.Request | src/services/apiService.ts:17-54 | exactly one fetch, of `CoreRequest` with the base URL and token at call time; the result is `Classify` of its answer and the store is `StoreAfter` it |
| ApiService.ApiService.Get | src/services/apiService.ts:57-59 | one GET with no body, classified as `Request` |
| ApiService.ApiService.Post | src/services/apiService.ts:61-66 | one POST with the data as JSON body, classified as `Request` |
| ApiService.ApiService.Put | src/services/apiService.ts:68-73 | one PUT with the data as JSON body, classified as `Request` |
| ApiService.ApiService.Delete | src/services/apiService.ts:75-77 | one DELETE with no body, classified as `Request` |
| ApiService.ApiService.HealthCheck | src/services/apiService.ts:80-82 | one authenticated GET of `/health` through the request core |
| ApiService.ApiService.GenerateContent | src/services/apiService.ts:84-86 | one POST of `{prompt, mode}` to `/v1/generate` |
| ApiService.ApiService.SendDialogMessage | src/services/apiService.ts:88-90 | one POST of `{prompt, mode}` to `/dialogo_conmigo/message` |
| ApiService.ApiService.GetDialogHistory | src/services/apiService.ts:92-94 | one GET of `HistoryEndpoint(days)`, with days 2 by default |
| ApiService.ApiService.GetMeditationMusic | src/services/apiService.ts:96-98 | one POST of `{prompt, mode}` to `/meditation/music` |
| OnboardingService.SessionValue | src/services/onboardingService.ts:37-41 | a stored id is sent as that string; no stored id is sent as null |
| OnboardingService.PersonalDataBody | src/services/onboardingService.ts:63-70 | the body holds the session id and the three fields, and `birth_time` exactly when it is given |
| OnboardingService.StepRequest | src/services/onboardingService.ts:23-97 | every step is one POST to base URL plus its path with the default headers; only start has no body; every other body carries the stored session id or null |
| OnboardingService.WelcomeErrorMessage | src/services/onboardingService.ts:79-86 | the message contains the status and the body text |
| OnboardingService.Effect | src/services/onboardingService.ts:23-104 | a rejected fetch propagates with the store unchanged; the store is unchanged, or gains the session id after a successful start, or loses it after a successful completion |
| OnboardingService.StartStoresSession | src/services/onboardingService.ts:23-34 | a non-ok start throws "Failed to start onboarding session" and stores nothing; success iff ok with a string `session_id`, which is stored and returned |
| OnboardingService.SaveStepsFireAndForget | src/services/onboardingService.ts:36-70 | the four save steps never touch the store, resolve whatever the status, and throw only when the fetch rejects |
| OnboardingService.WelcomeResult | src/services/onboardingService.ts:72-89 | store unchanged; a non-ok status throws a message naming the status; an ok object body resolves to `welcome_message` |
| OnboardingService.CompleteEndsSession | src/services/onboardingService.ts:91-104 | succeeds iff ok with a JSON body, then returns it and removes the session key; every failure keeps the key; non-ok throws `detail` or "Failed to complete registration" |
| OnboardingService.RunTouchesOnlySessionKey | src/services/onboardingService.ts:19-104 | any sequence of steps, with any outcomes, changes no key but the session key |
| OnboardingService.NoStartNoSession | src/services/onboardingService.ts:32 | without a start no session id ever appears in the store |
| OnboardingService.SessionIdStable | src/services/onboardingService.ts:36-89 | steps other than start and completion, in any order, leave the stored session id as it was |
| OnboardingService.StubSaveIntention | src/services/onboardingService.ts:109-111 | the exported `saveIntention` always throws "Function not implemented." |
| OnboardingService.OnboardingService.GetSessionId | src/services/onboardingService.ts:19-21 | returns what is stored under the session key, or none |
| OnboardingService.OnboardingService.StartOnboarding | src/services/onboardingService.ts:23-34 | one request, `StepRequest(Start)`; outcome and store as `Effect` |
| OnboardingService.OnboardingService.Save | src/services/onboardingService.ts:36-70 | a save step sends one request carrying the stored id; outcome and store as `Effect`, which never changes the store |
| OnboardingService.OnboardingService.SaveTempleNameStep | src/services/onboardingService.ts:36-43 | one POST to `/onboarding/temple` with session id and temple name; store unchanged |
| OnboardingService.OnboardingService.SaveEmotionalStateStep | src/services/onboardingService.ts:45-52 | one POST to `/onboarding/emotional-state`; store unchanged |
| OnboardingService.OnboardingService.SaveIntentionStep | src/services/onboardingService.ts:54-61 | one POST to `/onboarding/intention`; store unchanged |
| OnboardingService.OnboardingService.SavePersonalDataStep | src/services/onboardingService.ts:63-70 | one POST to `/onboarding/personal-data` with the spread data; store unchanged |
| OnboardingService.OnboardingService.GetWelcomeMessage | src/services/onboardingService.ts:72-89 | the request goes out with the stored id or null, with no local check; outcome as `Effect` |
| OnboardingService.OnboardingService.CompleteRegistrationStep | src/services/onboardingService.ts:91-104 | one POST with session id, email and password; outcome and store as `Effect` |
| Countdown.Tick | src/screens/SilencioSagradoScreen.tsx:34-47 | active with time left: one second less; active at zero: stopped; inactive: unchanged; the timer never grows |
| Countdown.CountsDown | src/screens/SilencioSagradoScreen.tsx:37-40 | k ticks after starting with d seconds, for k up to d, the session runs with d - k left |
| Countdown.CompletesAfter | src/screens/SilencioSagradoScreen.tsx:41-44 | d + 1 ticks after starting with d seconds, and every tick after, the clock is stopped at zero |
| Countdown.TicksAfter | src/screens/SilencioSagradoScreen.tsx:34-47 | m + n ticks are m ticks followed by n |
| Countdown.StaysStopped | src/screens/SilencioSagradoScreen.tsx:34-47 | an inactive clock never changes |
| Countdown.FormatTimeRoundTrip | src/screens/SilencioSagradoScreen.tsx:90-94 | the colon is third from the end, both parts are digits, minutes * 60 + seconds is the input, seconds < 60, and the text is 5 long iff the input is below 6000 (the meditation screen's copy, MeditaConmigoScreen.tsx:189-193, is the same function) |
| Text.Padded2PairRoundTrip | src/screens/SilencioSagradoScreen.tsx:93 | two padded numbers around a separator read back as those numbers, and the text is 5 long iff the first is below 100 |
| SilencioSagradoScreen.DurationsWellFormed | src/screens/SilencioSagradoScreen.tsx:25-32 | every offered duration is a multiple of 60 from 180 to 1800, captioned with its minutes, in increasing order |
| SilencioSagradoScreen.SilencioSagradoScreen.StartSilence | src/screens/SilencioSagradoScreen.tsx:49-53 | timer and selected duration become the duration, and the session is active |
| SilencioSagradoScreen.SilencioSagradoScreen.Tick | src/screens/SilencioSagradoScreen.tsx:34-47 | the clock moves by `Countdown.Tick`, calling `completeMeditation` at zero; the selected duration is kept |
| SilencioSagradoScreen.SilencioSagradoScreen.StopSilence | src/screens/SilencioSagradoScreen.tsx:55-72 | "Terminar" clears active, timer and selected duration; "Continuar" changes nothing |
| SilencioSagradoScreen.SilencioSagradoScreen.CompleteMeditation | src/screens/SilencioSagradoScreen.tsx:74-75 | only `isActive` becomes false |
| SilencioSagradoScreen.SilencioSagradoScreen.AcknowledgeCompletion | src/screens/SilencioSagradoScreen.tsx:80-85 | "Finalizar" clears the selected duration only |
| MeditaConmigoScreen.DefaultGuidanceMentions | src/screens/MeditaConmigoScreen.tsx:127-137 | the default guidance contains the session's name, description and minutes |
| MeditaConmigoScreen.InterleaveContains | src/screens/MeditaConmigoScreen.tsx:128-136 | a text built from fixed parts and three inserts contains each insert |
| MeditaConmigoScreen.ReplyText | src/screens/MeditaConmigoScreen.tsx:96 | a reply has guidance iff it returned a truthy object with a truthy `text`, which is that text |
| MeditaConmigoScreen.GuidanceAfter | src/screens/MeditaConmigoScreen.tsx:89-124 | the reply's text when it has one; the default guidance when not, or when the call threw |
| MeditaConmigoScreen.MusicAfter | src/screens/MeditaConmigoScreen.tsx:102-115 | a throwing music call gives exactly the five fallback tracks; a reply with a `tracks` list gives that list, element by element; any other reply keeps the old list |
| MeditaConmigoScreen.TracksAfter | src/screens/MeditaConmigoScreen.tsx:89-120 | a throwing guidance or music call gives exactly the five fallback tracks; once the guidance call returned, the tracks are `MusicAfter` of the music reply |
| MeditaConmigoScreen.DisplayedTracks | src/screens/MeditaConmigoScreen.tsx:232 | at most three tracks are shown, the first ones, in order |
| MeditaConmigoScreen.MeditaConmigoScreen.StartMeditation | src/screens/MeditaConmigoScreen.tsx:84-125 | session set, timer = minutes * 60, active and not loading whatever the calls did; guidance and tracks as `GuidanceAfter` and `TracksAfter` |
| MeditaConmigoScreen.MeditaConmigoScreen.ShowGuidance | src/screens/MeditaConmigoScreen.tsx:96-100 | guidance becomes `GuidanceAfter` of the reply, nothing else changes |
| MeditaConmigoScreen.MeditaConmigoScreen.ApplyMusic | src/screens/MeditaConmigoScreen.tsx:103-115 | tracks become `MusicAfter` of the music reply, nothing else changes |
| MeditaConmigoScreen.MeditaConmigoScreen.SetDefaultGuidance | src/screens/MeditaConmigoScreen.tsx:127-137 | guidance becomes `DefaultGuidance`, nothing else changes |
| MeditaConmigoScreen.MeditaConmigoScreen.GenerateFallbackMusic | src/screens/MeditaConmigoScreen.tsx:139-148 | tracks become the five fallback tracks, nothing else changes |
| MeditaConmigoScreen.MeditaConmigoScreen.Tick | src/screens/MeditaConmigoScreen.tsx:69-82 | the clock moves by `Countdown.Tick`; session, guidance and tracks are kept |
| MeditaConmigoScreen.MeditaConmigoScreen.StopMeditation | src/screens/MeditaConmigoScreen.tsx:150-169 | "Detener" resets active, timer, session, guidance and tracks; "Continuar" changes nothing |
| MeditaConmigoScreen.MeditaConmigoScreen.CompleteMeditation | src/screens/MeditaConmigoScreen.tsx:171-172 | only `isActive` becomes false |
| MeditaConmigoScreen.MeditaConmigoScreen.AcknowledgeCompletion | src/screens/MeditaConmigoScreen.tsx:177-183 | "Finalizar" clears session, guidance and tracks |
| DiarioVivoScreen.Reflection | src/screens/DiarioVivoScreen.tsx:84-101 | `response.text` when the call returned a body with truthy text; the picked fallback otherwise, including when the call threw |
| DiarioVivoScreen.RemoveById | src/screens/DiarioVivoScreen.tsx:130 | the kept entries are entries of the list, none with the deleted id, and no more of them |
| DiarioVivoScreen.RemoveByIdAppend | src/screens/DiarioVivoScreen.tsx:130 | the filter distributes over concatenation, so the relative order is preserved |
| DiarioVivoScreen.RemoveByIdKeepsOthers | src/screens/DiarioVivoScreen.tsx:130 | every entry with another id is kept as many times as it occurs |
| DiarioVivoScreen.RemoveAbsentId | src/screens/DiarioVivoScreen.tsx:130 | an id nobody carries removes nothing |
| DiarioVivoScreen.PrependThenDelete | src/screens/DiarioVivoScreen.tsx:91 | deleting a just-prepended entry with a fresh id restores the old list |
| DiarioVivoScreen.Persisted | src/screens/DiarioVivoScreen.tsx:39-43 | a non-empty list is written under `diario_entries`; an empty list leaves the store as it was |
| DiarioVivoScreen.DiarioVivoScreen.EntriesChanged | src/screens/DiarioVivoScreen.tsx:39-69 | the store becomes `Persisted` of the current list |
| DiarioVivoScreen.DiarioVivoScreen.LoadEntries | src/screens/DiarioVivoScreen.tsx:45-61 | a stored, non-empty and decodable value replaces the list, which is then persisted; otherwise list and store stay as they were; the initial spinner always clears |
| DiarioVivoScreen.DiarioVivoScreen.SaveEntry | src/screens/DiarioVivoScreen.tsx:71-108 | blank input changes nothing; otherwise exactly one entry with the trimmed text and `Reflection` is prepended, input cleared, list persisted, whether or not the call failed |
| DiarioVivoScreen.DiarioVivoScreen.DeleteEntry | src/screens/DiarioVivoScreen.tsx:121-134 | "Eliminar" sets the list to `RemoveById` and persists it when non-empty; "Cancelar" changes nothing |
| DialogoSagradoScreen.AiContent | src/screens/DialogoSagradoScreen.tsx:85-102 | truthy `response.text`; the apology when the text is falsy; the fixed fallback when the call threw or the body was null |
| DialogoSagradoScreen.DialogoSagradoScreen.LoadHistory | src/screens/DialogoSagradoScreen.tsx:53-62 | the history is requested for 2 days (`HISTORY_DAYS`, returned as the day count sent); a returned history replaces the list; a failure keeps it; the initial spinner always clears |
| DialogoSagradoScreen.DialogoSagradoScreen.SendMessage | src/screens/DialogoSagradoScreen.tsx:64-108 | blank input changes nothing; otherwise input cleared and exactly two messages appended, the trimmed user text and then the AI's `AiContent` |
| LoginScreen.OrEmpty | src/screens/LoginScreen.tsx:60-62 | a given value as is, a missing one as the empty string |
| LoginScreen.Autofill | src/screens/LoginScreen.tsx:56-71 | route parameters with username and password win; otherwise a non-empty decodable stored record fills all three fields, full name defaulting to ''; otherwise the form is unchanged |
| LoginScreen.ParamsIgnoreStorage | src/screens/LoginScreen.tsx:57-65 | when the route carries credentials, the stored record plays no part |
| LoginScreen.LoginCall | src/screens/LoginScreen.tsx:94-104 | no call iff the trimmed username or trimmed password is empty; otherwise the trimmed username and the untrimmed password |
| LoginScreen.RegisterCall | src/screens/LoginScreen.tsx:131-142 | the same gate; the call carries trimmed username, untrimmed password and trimmed full name |
| LoginScreen.BlankPasswordBlocked | src/screens/LoginScreen.tsx:94 | a password of spaces passes neither gate |
| LoginScreen.LoginScreen.FillFromParamsOrStorage | src/screens/LoginScreen.tsx:54-73 | the form becomes `Autofill` of the route and the stored `lastRegisteredUser` |
| LoginScreen.LoginScreen.CheckAuthStatus | src/screens/LoginScreen.tsx:75-87 | goes to Main iff `isAuthenticated` resolved true; clears the initial spinner in every case |
| LoginScreen.LoginScreen.HandleLogin | src/screens/LoginScreen.tsx:93-114 | the call is `LoginCall` of the form; a blocked call shows the fields dialog; otherwise the welcome or the error's message, with the spinner cleared |
| LoginScreen.LoginScreen.HandleRegister | src/screens/LoginScreen.tsx:130-162 | the call is `RegisterCall` of the form; dialogs for blocked, success and error |
| LoginScreen.LoginScreen.ConfirmRegistered | src/screens/LoginScreen.tsx:150-153 | back to the login tab with the password cleared and the username and full name kept |
| OnboardingPersonalDataScreen.Validate | src/screens/onboarding/OnboardingPersonalDataScreen.tsx:33-52 | required fields first, then the date, then the time only when given; the first failure's dialog; passes iff all checks pass |
| OnboardingPersonalDataScreen.SentData | src/screens/onboarding/OnboardingPersonalDataScreen.tsx:56 | the form goes out exactly as entered, untrimmed |
| OnboardingPersonalDataScreen.FirstName | src/screens/onboarding/OnboardingPersonalDataScreen.tsx:57 | the prefix of the full name before its first space, or all of it |
| OnboardingPersonalDataScreen.DateTextRoundTrip | src/screens/onboarding/OnboardingPersonalDataScreen.tsx:102-107 | the picked date's text is year, dash, two-digit month (index + 1), dash, two-digit day, and reads back as them |
| OnboardingPersonalDataScreen.TimeTextRoundTrip | src/screens/onboarding/OnboardingPersonalDataScreen.tsx:140-144 | the picked time's text is exactly `HH:mm` and reads back as the hours and minutes |
| OnboardingPersonalDataScreen.OnboardingPersonalDataScreen.HandleNext | src/screens/onboarding/OnboardingPersonalDataScreen.tsx:33-64 | a failing check shows its dialog and sends nothing; otherwise `SentData` is sent, and it moves on with `FirstName` or shows the save error |
| OnboardingPersonalDataScreen.OnboardingPersonalDataScreen.PickDate | src/screens/onboarding/OnboardingPersonalDataScreen.tsx:102-108 | only the birth date changes, to the picked date's text |
| OnboardingPersonalDataScreen.OnboardingPersonalDataScreen.PickTime | src/screens/onboarding/OnboardingPersonalDataScreen.tsx:140-145 | only the birth time changes, to the picked time's text |
| OnboardingRegisterScreen.CheckFields | src/screens/onboarding/OnboardingRegisterScreen.tsx:36-44 | any empty field (untrimmed) first; then a mismatched confirmation; passes iff all are non-empty and the passwords match |
| OnboardingRegisterScreen.StoredRecord | src/screens/onboarding/OnboardingRegisterScreen.tsx:49 | the record holds exactly username and password, no full name |
| OnboardingRegisterScreen.OnboardingRegisterScreen.HandleRegister | src/screens/onboarding/OnboardingRegisterScreen.tsx:35-57 | a failed check shows its dialog and writes nothing; otherwise only `lastRegisteredUser` is written and it goes to Login with username and password; no backend call |
| OnboardingRegisterScreen.RegisteredFillsLogin | src/screens/onboarding/OnboardingRegisterScreen.tsx:51 | the route parameters it passes fill the login form with that username and password and an empty full name |
| OnboardingRegisterScreen.StoredRecordFillsLogin | src/screens/onboarding/OnboardingRegisterScreen.tsx:49 | without route parameters, the stored record fills the same fields, given that parsing reads back what was written |

## Left out

- Real I/O is not modelled: fetch, AsyncStorage and JSON. A failing AsyncStorage call (as opposed to a refused value) is not modelled.
- The backend is a fixed function of the request, so two identical requests get the same answer. The 5-second probe timeout and `AbortController` are a rejected fetch. `REQUEST_TIMEOUT` and `MAX_RETRIES` are declared constants that no code reads.
- `AsyncStorage.setItem` with a value that is not a string (a missing `access_token`, `token_type` or `session_id`) is assumed to fail with an error. The library's behaviour is not part of this model.
- JSON numbers are integers. The `exp > now` comparison of a string or an array `exp` (JavaScript numeric coercion) counts as not live.
- The base64 decoder, `JSON.parse`, `JSON.stringify`, the date revival in `loadEntries` and date-fns `parse`/`isValid` are abstract parameters. There is no cryptographic check of the token.
- Console logging and the `Alert` popups themselves are not modelled. Dialogs are returned as values, and each confirmation button is a boolean parameter.
- Navigation is not modelled. The screens return where they would navigate (the Login route parameters, the first name, going to Main), and the navigators are not part of this model.
- Screens take the outcome of each service call they await as a parameter and do not call the service objects.
- Async interleavings of React state updates are not modelled: each handler runs to completion in order, and each countdown tick is one step.
- `handleDemoLogin` in the login screen is left out: it calls `login('demo', 'demo')`, which goes to the backend like any other login.
- src/services/profileService.ts, the static-content and thin call-and-navigate screens, the components, styles and build setup are not part of this model.
- MeditaConmigoScreen.MusicAfter: a truthy `tracks` that is not an array keeps the old list rather than storing the non-array.
- DialogoSagradoScreen.DialogoSagradoScreen.LoadHistory: takes the history already read as a list of messages. A body that is not a list is not modelled.
- LoginScreen.Autofill: a stored record that parses but lacks fields is up to the abstract decoder. A throwing parse leaves the form unchanged.
- A truthy non-string `text` in a reply is shown through `ToJsString`; the screens would hold the raw value.
- Countdown.Tick: `setInterval` timing is a discrete step per second, and clearing the interval is implicit.
