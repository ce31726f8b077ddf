# Gemini-style chat client: session state in Dafny

This project models the client-side session state of a single-page chat
application with a phone-OTP login. It covers:

- the three Redux slices that hold the state:
  - `chat`: the room list, the active room, message lists per room and one typing flag;
  - `auth`: the flags of the OTP handshake;
  - `ui`: two toggles and a search string;
- the screen code that drives those slices: the login form, the chat
  screen, the room sidebar and the country-code picker.

Layout, one file per source file (plus three helper files):

| file | models |
|---|---|
| `chat_slice.dfy` | `src/redux/chatSlice.js`: module `ChatReducer` (pure reducers, invariant, composed lemmas) and module `ChatSlice` (class `ChatStore`, whose methods update its fields in place) |
| `auth_slice.dfy` | `src/redux/authSlice.js`: modules `AuthReducer` and `AuthSlice` (class `AuthStore`) |
| `ui_slice.dfy` | `src/redux/uiSlice.js`: modules `UiReducer` and `UiSlice` (class `UiStore`) |
| `login_form.dfy` | `src/components/auth/LoginForm.jsx`: schemas, OTP generation, the digit filter, class `LoginController` |
| `chat_interface.dfy` | `src/components/chat/ChatInterface.jsx`: send guard, reply templates, upload checks, class `ChatInterfaceView` |
| `chat_rooms_list.dfy` | `src/components/dashboard/ChatRoomsList.jsx`: search filter and handler guards |
| `country_code_selector.dfy` | `src/components/auth/CountryCodeSelector.jsx`: option building, de-duplication, `valueOption` |
| `js_string.dfy`, `seqs.dfy`, `wrappers.dfy` | the JavaScript built-ins used: `String(n)`, `trim`, `toLowerCase`, `startsWith`, `includes`, `filter`; and `Option` for `null` |

Redux Toolkit turns each reducer case into a pure function from the old
state to the new one. The `XReducer` modules model those functions, and
their contracts and lemmas hold the properties. Each `XStore` class holds
the same fields and updates them in place, as the Immer-style reducer bodies
do. Every one of its methods is proved to produce exactly the state that
its pure counterpart gives.

Asynchronous work is modelled as explicit steps:

- Each `setTimeout` callback becomes an element of a controller's `pending`
  sequence. A separate `Fire…` method runs it later, and the caller picks
  which timer fires, so replies can land in any order.
- Each `Math.random` draw is a parameter of a subset type: `OtpDraw` is
  `[0, 900000)` and `TemplateIndex` is `[0, 7)`.
- `nanoid` ids and ISO timestamps are parameters. Where distinct ids
  matter, a `FreshId` precondition says what `nanoid` delivers.

Behaviour of the code that a reader might not expect, and that the model
keeps as written:

- `typing` is one flag for all rooms (`chatSlice.js:7`). A reply for one
  room clears it while another room's send is still unanswered. See
  `ChatReducer.TypingIsGlobal`.
- `deleteRoom` removes the room from the list but keeps its message list
  (`chatSlice.js:24-31`). See `ChatReducer.CreateThenDelete`.
- A reply that arrives after its room was deleted is still appended to that
  surviving list, and the room does not come back. See
  `ChatReducer.ReplyAfterDelete` and `ChatInterface.SendDeleteThenReply`.
- `setActiveRoom` stores any id, even one that names no room
  (`chatSlice.js:32-34`). So the active room is not always a room of the list.
- The sidebar's `handleCreateRoom` dispatches `createRoom` with a title only;
  the id is drawn inside the reducer, so the handler cannot know it.
- The login schema asks for a country code of at least two characters
  (`LoginForm.jsx:23`).
- Paging runs only when `page > 1` (`ChatInterface.jsx:36`), and `page`
  starts at 1 and is raised only by paging, so it never runs.
  `ChatInterfaceView.PageFrozen` is preserved by every handler.
- The chat screen stays mounted when the route's room id changes
  (`DashboardLayout.jsx:31`). Its draft, image preview and page survive,
  and only the effect on `roomId` runs again. A draft typed in one room is
  sent to the next. See `ChatInterface.DraftFollowsRoute`.
- The `ui` slice's `searchQuery` is not what the sidebar filters on. The
  sidebar keeps its own `useState` query.

## Model

| member | source | states |
|---|---|---|
| `ChatReducer.RoomTitle` | src/redux/chatSlice.js:17 | a non-empty requested title is used as is; an absent or empty one gives `"Chat "` followed by digits without a leading zero that read back as the room count plus one |
| `ChatReducer.CreateRoom` | src/redux/chatSlice.js:14-23 | one room more, the new room (given id, title, time) first and the old list after it; the id gets an empty message list, every other list is kept; the new room is active; typing unchanged |
| `ChatReducer.WithoutRoom` | src/redux/chatSlice.js:26 | keeps exactly the rooms whose id differs, each as many times as in the original list, as a subsequence of it |
| `ChatReducer.DeleteRoom` | src/redux/chatSlice.js:24-31 | rooms with the id are gone and every other room stays, with its multiplicity, in order; deleting the active room makes the new head's id active (null for an empty list or an empty head id); otherwise the active room is kept; messages (the deleted room's included) and typing untouched |
| `ChatReducer.SetActiveRoom` | src/redux/chatSlice.js:32-34 | the active room becomes the given id unconditionally; nothing else changes |
| `ChatReducer.SendMessage` | src/redux/chatSlice.js:35-48 | the room's list (a new empty one if absent) grows by exactly one user message at its end, carrying the text and image; other lists unchanged; typing on; rooms and active room unchanged |
| `ChatReducer.AddAIMessage` | src/redux/chatSlice.js:49-58 | succeeds iff the room has a list; then exactly one AI message (no image) is appended, other lists unchanged, typing off; otherwise the store is left as it was, as the thrown TypeError leaves it |
| `ChatReducer.SetTyping` | src/redux/chatSlice.js:59-61 | sets the flag, nothing else |
| `ChatReducer.InitialValid` | src/redux/chatSlice.js:3-8 | the initial state satisfies the invariant (distinct non-empty room ids, each with a list) |
| `ChatReducer.CreateRoomValid` | src/redux/chatSlice.js:14-23 | with a fresh `nanoid`, creating a room keeps the invariant |
| `ChatReducer.DeleteRoomValid` | src/redux/chatSlice.js:24-31 | deleting keeps the invariant |
| `ChatReducer.DistinctIdsWithoutRoom` | src/redux/chatSlice.js:26 | removing rooms from a list with distinct ids leaves distinct ids |
| `ChatReducer.SendMessageValid` | src/redux/chatSlice.js:35-48 | sending keeps the invariant |
| `ChatReducer.AddAIMessageValid` | src/redux/chatSlice.js:49-58 | a reply keeps the invariant |
| `ChatReducer.CreateThenDelete` | src/redux/chatSlice.js:14-31 | creating then deleting a room gives back the old room list and head-or-null active room, but its empty message list remains |
| `ChatReducer.SendThenReply` | src/redux/chatSlice.js:35-58 | send, typing on, reply: the room's list ends with the user message then the AI message, even with no prior list, and typing is off |
| `ChatReducer.ReplyAfterDelete` | src/redux/chatSlice.js:24-58 | a reply for a deleted room is still appended to its surviving list, and the room does not reappear |
| `ChatReducer.TypingIsGlobal` | src/redux/chatSlice.js:7 | the reply for one room clears typing while another room's send is still unanswered |
| `ChatSlice.ChatStore.constructor` | src/redux/chatSlice.js:3-8 | the store starts with no rooms, no active room, no lists, typing off |
| `ChatSlice.ChatStore.CreateRoom` | src/redux/chatSlice.js:14-23 | the in-place update (unshift, list, active) yields `ChatReducer.CreateRoom` of the old state |
| `ChatSlice.ChatStore.DeleteRoom` | src/redux/chatSlice.js:24-31 | the in-place update yields `ChatReducer.DeleteRoom` of the old state |
| `ChatSlice.ChatStore.SetActiveRoom` | src/redux/chatSlice.js:32-34 | yields `ChatReducer.SetActiveRoom` of the old state |
| `ChatSlice.ChatStore.SendMessage` | src/redux/chatSlice.js:35-48 | the in-place push yields `ChatReducer.SendMessage` of the old state |
| `ChatSlice.ChatStore.AddAIMessage` | src/redux/chatSlice.js:49-58 | returns whether the list existed; the state is `ChatReducer.AddAIMessage`'s result then, and unchanged otherwise |
| `ChatSlice.ChatStore.SetTyping` | src/redux/chatSlice.js:59-61 | yields `ChatReducer.SetTyping` of the old state |
| `AuthReducer.PayloadOr` | src/redux/authSlice.js:43 | a truthy payload is the message, else the default |
| `AuthReducer.SetCredentials` | src/redux/authSlice.js:23-28 | stores phone and code, clears error and success; otpSent, otpVerified, tempOtp, isAuthenticated and isLoading untouched |
| `AuthReducer.SendOtpStart` | src/redux/authSlice.js:30-34 | loading on, error and success cleared; flow and credentials untouched |
| `AuthReducer.SendOtpSuccess` | src/redux/authSlice.js:35-40 | loading off, otpSent on, tempOtp replaced by the new code, success "OTP sent"; error, verification and credentials untouched |
| `AuthReducer.SendOtpFailure` | src/redux/authSlice.js:41-44 | loading off, error is the payload or "Failed to send OTP"; success, otpSent, tempOtp untouched |
| `AuthReducer.VerifyOtpStart` | src/redux/authSlice.js:46-50 | loading on, error and success cleared; flow untouched |
| `AuthReducer.VerifyOtpSuccess` | src/redux/authSlice.js:51-57 | loading off, verified and authenticated, tempOtp cleared, success "OTP verified"; error and otpSent untouched |
| `AuthReducer.VerifyOtpFailure` | src/redux/authSlice.js:58-61 | loading off, error is the payload or "Invalid OTP"; success, otpSent, tempOtp untouched |
| `AuthReducer.ResetAuthFlags` | src/redux/authSlice.js:63-67 | only isLoading, error and success change (off, cleared) |
| `AuthReducer.Logout` | src/redux/authSlice.js:69-76 | authentication, otpSent, otpVerified, tempOtp, error, success reset; phone, country code and isLoading untouched |
| `AuthReducer.StartThenFinishOneFeedback` | src/redux/authSlice.js:30-61 | a start followed by its success or failure leaves at most one of error and success set |
| `AuthReducer.FailureAloneKeepsSuccess` | src/redux/authSlice.js:35-61 | a verify failure not preceded by its start can leave both error and success set |
| `AuthSlice.AuthStore.constructor` | src/redux/authSlice.js:4-17 | the initial flags: not authenticated, empty phone, "+91", nothing sent, not loading, no messages, no code |
| `AuthSlice.AuthStore.SetCredentials` | src/redux/authSlice.js:23-28 | yields `AuthReducer.SetCredentials` of the old state |
| `AuthSlice.AuthStore.SendOtpStart` | src/redux/authSlice.js:30-34 | yields `AuthReducer.SendOtpStart` of the old state |
| `AuthSlice.AuthStore.SendOtpSuccess` | src/redux/authSlice.js:35-40 | yields `AuthReducer.SendOtpSuccess` of the old state |
| `AuthSlice.AuthStore.SendOtpFailure` | src/redux/authSlice.js:41-44 | yields `AuthReducer.SendOtpFailure` of the old state |
| `AuthSlice.AuthStore.VerifyOtpStart` | src/redux/authSlice.js:46-50 | yields `AuthReducer.VerifyOtpStart` of the old state |
| `AuthSlice.AuthStore.VerifyOtpSuccess` | src/redux/authSlice.js:51-57 | yields `AuthReducer.VerifyOtpSuccess` of the old state |
| `AuthSlice.AuthStore.VerifyOtpFailure` | src/redux/authSlice.js:58-61 | yields `AuthReducer.VerifyOtpFailure` of the old state |
| `AuthSlice.AuthStore.ResetAuthFlags` | src/redux/authSlice.js:63-67 | yields `AuthReducer.ResetAuthFlags` of the old state |
| `AuthSlice.AuthStore.Logout` | src/redux/authSlice.js:69-76 | yields `AuthReducer.Logout` of the old state |
| `UiReducer.ToggleDarkMode` | src/redux/uiSlice.js:13-15 | darkMode flips; searchQuery and isSidebar unchanged |
| `UiReducer.SetSearchQuery` | src/redux/uiSlice.js:16-18 | searchQuery becomes exactly the payload; the toggles unchanged |
| `UiReducer.ToggleSidebar` | src/redux/uiSlice.js:19-21 | isSidebar flips; the rest unchanged |
| `UiReducer.TogglesAreInvolutions` | src/redux/uiSlice.js:13-21 | either toggle applied twice restores the state |
| `UiSlice.UiStore.constructor` | src/redux/uiSlice.js:3-7 | darkMode off, empty query, sidebar shown |
| `UiSlice.UiStore.ToggleDarkMode` | src/redux/uiSlice.js:13-15 | yields `UiReducer.ToggleDarkMode` of the old state |
| `UiSlice.UiStore.SetSearchQuery` | src/redux/uiSlice.js:16-18 | yields `UiReducer.SetSearchQuery` of the old state |
| `UiSlice.UiStore.ToggleSidebar` | src/redux/uiSlice.js:19-21 | yields `UiReducer.ToggleSidebar` of the old state |
| `LoginForm.SchemaOnceSent` | src/components/auth/LoginForm.jsx:21-38 | before a code is sent the schema asks phone length at least 10 and code length at least 2; after, also an OTP of length exactly 6 |
| `LoginForm.GenerateOtp` | src/components/auth/LoginForm.jsx:75 | the code is six digits with no leading zero and reads back as 100000 plus the draw |
| `LoginForm.GenerateOtpInjective` | src/components/auth/LoginForm.jsx:75 | different draws give different codes |
| `LoginForm.ResendSupersedes` | src/components/auth/LoginForm.jsx:60-101 | after a resend with a different draw the first code no longer matches and the new one does |
| `LoginForm.DigitsOnly` | src/components/auth/LoginForm.jsx:155-158 | the result is all digits, keeps every digit of the input as many times as it occurs, in order |
| `LoginForm.DigitsOnlyIdempotent` | src/components/auth/LoginForm.jsx:155-158 | filtering the filtered text changes nothing |
| `LoginForm.LoginController.constructor` | src/components/auth/LoginForm.jsx:29-55 | a form over a fresh auth store has no timers and satisfies `Settled` |
| `LoginForm.LoginController.HandleSendOtp` | src/components/auth/LoginForm.jsx:60-86 | bad phone or code: nothing dispatched, nothing scheduled; otherwise setCredentials then sendOtpStart, and exactly one delivery timer |
| `LoginForm.LoginController.OnVerify` | src/components/auth/LoginForm.jsx:88-102 | verifyOtpStart, and one check timer carrying the typed code and `tempOtp` as it was |
| `LoginForm.LoginController.OnPrimarySubmit` | src/components/auth/LoginForm.jsx:104-110 | sends a code when none was sent, verifies otherwise |
| `LoginForm.LoginController.SubmitForm` | src/components/auth/LoginForm.jsx:104-113 | ignored while loading (button disabled) or when the schema rejects; otherwise `OnPrimarySubmit`; keeps `Settled` |
| `LoginForm.LoginController.ClickResend` | src/components/auth/LoginForm.jsx:177-186 | only when sent, not verified and not loading: runs `HandleSendOtp` again; keeps `Settled` |
| `LoginForm.LoginController.FireOtpDelivery` | src/components/auth/LoginForm.jsx:73-85 | sendOtpSuccess with the code generated from the draw; the timer is removed; keeps `Settled` |
| `LoginForm.LoginController.FireVerifyCheck` | src/components/auth/LoginForm.jsx:91-101 | verifyOtpSuccess iff the typed code equals the captured code exactly, else verifyOtpFailure("Invalid OTP"); keeps `Settled` |
| `LoginForm.SignIn` | src/components/auth/LoginForm.jsx:60-110 | submit, delivery, submit of the delivered code, check: signed in, code cleared, success message, no timers left |
| `ChatInterface.RoomMessages` | src/components/chat/ChatInterface.jsx:23 | the room's list when the route id is truthy and has one, the empty list otherwise |
| `ChatInterface.CannotSendIff` | src/components/chat/ChatInterface.jsx:54 | nothing is sent exactly when the text is all whitespace and there is no image |
| `ChatInterface.SimulatedReply` | src/components/chat/ChatInterface.jsx:76-87 | the reply is one of the seven templates and contains the user's text |
| `ChatInterface.CheckUpload` | src/components/chat/ChatInterface.jsx:89-101 | accepted iff a file is given, its type starts with "image/" and its size is at most 5242880 bytes; not-an-image iff the type check fails |
| `ChatInterface.ChatInterfaceView.constructor` | src/components/chat/ChatInterface.jsx:17-29 | empty draft, no image, page 1, no timers; a truthy route id is made active, an empty one dispatches nothing |
| `ChatInterface.ChatInterfaceView.ChangeRoute` | src/components/chat/ChatInterface.jsx:12-29 | a new route id replaces the old; a changed truthy id is made active, otherwise nothing is dispatched; draft, preview, page, loading and timers survive |
| `ChatInterface.ChatInterfaceView.EditText` | src/components/chat/ChatInterface.jsx:203-205 | the draft becomes the typed text; nothing else changes |
| `ChatInterface.ChatInterfaceView.HandleImageUpload` | src/components/chat/ChatInterface.jsx:89-108 | an accepted file becomes the preview; otherwise nothing changes |
| `ChatInterface.ChatInterfaceView.RemoveImage` | src/components/chat/ChatInterface.jsx:180-181 | the preview is cleared |
| `ChatInterface.ChatInterfaceView.HandleSendMessage` | src/components/chat/ChatInterface.jsx:53-74 | guarded: nothing at all; otherwise sendMessage with the untrimmed text and image, then setTyping(true), draft and preview cleared, exactly one reply timer for the room quoting the text |
| `ChatInterface.ChatInterfaceView.FireReply` | src/components/chat/ChatInterface.jsx:68-73 | addAIMessage with a template reply; when every pending reply has a list (kept by all steps, deletes included) it always succeeds |
| `ChatInterface.ChatInterfaceView.OnInView` | src/components/chat/ChatInterface.jsx:35-39 | loads more only when in view, past page 1 and not loading; keeps the page frozen at 1 |
| `ChatInterface.ChatInterfaceView.LoadMoreMessages` | src/components/chat/ChatInterface.jsx:45-51 | marks loading and schedules one page timer |
| `ChatInterface.ChatInterfaceView.FirePage` | src/components/chat/ChatInterface.jsx:47-50 | page grows by exactly one and loading ends |
| `ChatInterface.SendThenDelete` | src/components/chat/ChatInterface.jsx:53-67 | a send, then the room's deletion from the sidebar: the user message stays in the room's list, the room is gone, its reply is still pending and still has a list to land in |
| `ChatInterface.SendDeleteThenReply` | src/components/chat/ChatInterface.jsx:53-73 | send, delete the room, reply: the list ends with the user and AI messages, the room stays deleted, typing off |
| `ChatInterface.DraftFollowsRoute` | src/components/chat/ChatInterface.jsx:17-74 | a draft typed under one route and sent after the route changes lands in the new room's list, which becomes active, and its reply is scheduled for the new room |
| `ChatRoomsList.FilteredRooms` | src/components/dashboard/ChatRoomsList.jsx:16-18 | keeps exactly the rooms whose lower-cased title includes the lower-cased query, each with its multiplicity, as a subsequence |
| `ChatRoomsList.EmptyQueryKeepsAll` | src/components/dashboard/ChatRoomsList.jsx:16-18 | an empty query keeps every room |
| `ChatRoomsList.HandleCreateRoom` | src/components/dashboard/ChatRoomsList.jsx:20-27 | dispatches iff the answer is not blank, with the untrimmed answer as title |
| `ChatRoomsList.CreatedFromSidebarKeepsTitle` | src/components/dashboard/ChatRoomsList.jsx:21-23 | a room created from the sidebar gets the typed title, never the default |
| `ChatRoomsList.HandleDeleteRoom` | src/components/dashboard/ChatRoomsList.jsx:33-39 | dispatches deleteRoom with that id iff confirmed |
| `CountryCodeSelector.CountryToOptions` | src/components/auth/CountryCodeSelector.jsx:13-29 | no options without a root or a non-empty suffix array; otherwise one per suffix in order, value root+suffix, label "name (dial)" with name defaulting to "Unknown" |
| `CountryCodeSelector.AllOptions` | src/components/auth/CountryCodeSelector.jsx:46 | every option of every entry is in the flattened list |
| `CountryCodeSelector.FirstWithValue` | src/components/auth/CountryCodeSelector.jsx:78 | finds the first option with the value, and finds none exactly when none has it |
| `CountryCodeSelector.DedupeFacts` | src/components/auth/CountryCodeSelector.jsx:48-53 | kept options are unseen, pairwise distinct in value, each the first with its value, in input order, and no value is lost |
| `CountryCodeSelector.Deduplicate` | src/components/auth/CountryCodeSelector.jsx:48-53 | the loop with a mutable seen set computes the first-occurrence filter |
| `CountryCodeSelector.FetchCountries` | src/components/auth/CountryCodeSelector.jsx:31-58 | blank input or a failed request gives no options; otherwise the de-duplicated options of all entries, with distinct values |
| `CountryCodeSelector.ValueOption` | src/components/auth/CountryCodeSelector.jsx:76-80 | null for a falsy value; otherwise an option with that value: the first matching default, or a bare one labelled by the value |
| `CountryCodeSelector.InitialCodeShowsPreset` | src/components/auth/CountryCodeSelector.jsx:68-80 | with no `defaultCountries` the initial "+91" shows as the India preset |
| `CountryCodeSelector.OtherCodeShowsBare` | src/components/auth/CountryCodeSelector.jsx:68-80 | a code outside the presets, or any code over an empty preset list, shows as a bare option labelled by itself |
| `JsString.DecimalRoundTrip` | src/components/auth/LoginForm.jsx:75 | `String(n)` read back as decimal digits is `n` |
| `JsString.DecimalStringLength` | src/components/auth/LoginForm.jsx:75 | a number in [10^k, 10^(k+1)) has k+1 digits |
| `JsString.Trim` | src/components/chat/ChatInterface.jsx:54 | trimming leaves nothing iff the text is all whitespace (ECMAScript WhiteSpace and LineTerminator characters) |
| `JsString.TrimEdges` | src/components/dashboard/ChatRoomsList.jsx:22 | what trimming leaves starts and ends with a non-whitespace character |
| `JsString.ContainsAt` | src/components/dashboard/ChatRoomsList.jsx:17 | `includes` holds iff the part occurs at some position |
| `JsString.ContainsInfix` | src/components/chat/ChatInterface.jsx:78-84 | a string built around a part includes it |
| `Seqs.Filter` | src/components/dashboard/ChatRoomsList.jsx:16-18 | `filter` keeps exactly the accepted elements, each as many times as it occurs, as a subsequence |

## Left out

- Real time: the 1200 ms, 900 ms, 1000 ms and 1000-3000 ms delays. Each timer is a pending step that fires later, in an order the caller chooses.
- `Math.random` floating point. The OTP draw is an integer in [0, 900000) and the template pick is an index in [0, 7).
- `nanoid` and `new Date().toISOString()`. Both are parameters. Id freshness is a precondition only where distinct ids matter.
- The country lookup's `fetch`, `AbortController` and `lodash.debounce` (concurrency and network). The response is a parameter of `FetchCountries`, and a failed or aborted request is `None`.
- `redux-persist`. It is an opaque storage library; only `chatRooms` and `messages` are persisted (`src/store.js:11`), and nothing here depends on that.
- Rendering, routing and browser APIs: toasts, `navigate`, scrolling, `prompt` and `confirm` (their answers are parameters), and the `FileReader` read. The read's result is passed straight to `HandleImageUpload`.
- Navigation after room creation. The action payload has no id.
- The `catch` branch of the delivery timer (`sendOtpFailure('Could not send OTP')`). Nothing in its `try` can throw, so the timer always succeeds. The reducer itself is modelled.
- The OTP input's `maxLength={6}`. It is a browser limit on typing.
- `handleKeyPress`. Enter without Shift calls the same `handleSendMessage`.
- Unicode case folding in `toLowerCase`. Only ASCII letters are lowered.
- UTF-16: strings are sequences of Dafny characters, so a character outside the Basic Multilingual Plane counts once, not twice, in a length check.
- A cleared country selector yields `null`. It is modelled as the empty string, which fails the same checks.
- `CountryCodeSelector.AllOptions` states only that every option of every entry appears. Order and multiplicity are given by its definition, not by its contract.
