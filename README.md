# Telephony web client: session, call controllers and forms in Dafny

This project models the logic in the React client of a telephony backend.
It does not model the client's markup. Every awaited HTTP call is an input
`Outcome`:

- `Ok(Response(status, data))` means axios resolved, i.e. a 2xx answer.
- `Failed(HttpError(code, message, response))` means axios rejected. `response`
  is missing when no answer arrived.

Each handler returns the requests, toasts and navigations it performs, in
order, as a `seq<Event>`. `localStorage['isAuthenticated']` is one
`Option<string>` field of the session. The JavaScript values that handlers
inspect are a small `Json` datatype with JavaScript truthiness. Plain property
access (`a.b`, which throws on `null`/`undefined`), optional chaining (`a?.b`)
and `String(x)` are written out separately.

Modules follow the source files:

| module | source |
|---|---|
| `Js`, `Http` | JavaScript values, strings (`trim`, `includes`, `toLowerCase`, digits), HTTP outcomes, events, the error-message fallback chain |
| `AuthContext` | `src/context/AuthContext.js`: the `Session` class |
| `CallApi` | the `/initiateCall` and `/endCall` bodies shared by the call screens |
| `Dialer` | `src/components/Dialer/Dialer.js`: the `DialerScreen` class |
| `CallScreen` | `src/components/Dialer/CallScreen.js`: the `CallDialog` class and the `mm:ss` clock |
| `CallHistory` | `src/components/History/CallHistory.js`: the `HistoryScreen` class, the status colour, the `Xm Ys` display |
| `Contacts` | `src/components/Contacts/Contacts.js`: the `ContactsScreen` class |
| `AuthForm` | `src/components/Auth/AuthForm.js`: the schemas and the `AuthFormScreen` class |
| `Auth` | `src/components/Auth/Auth.js`: the `AuthPage` class |
| `PrivateRoute` | `src/components/PrivateRoute.js`: the render decision and the `Guard` class |
| `BottomNav` | `src/components/common/BottomNav.js`: the tab/path mapping |

Some behaviour worth knowing, modelled as the code has it:

- `Auth.AuthPage.HandleSubmit`: `Auth.js` signs the user in after a
  successful registration as well as after a login. `AuthForm.js` does not:
  after registering it only switches to login mode.
- `Dialer.DialerScreen.Call`: the handler itself does not check for an
  active call. The screen keeps a second dial from happening: while a call
  is active the call button is replaced by the end button
  (`src/components/Dialer/Dialer.js:239-266`) and the digit keys are
  disabled (`src/components/Dialer/Dialer.js:224`).
- `PrivateRoute.Decide`: once the loader has timed out, the protected page is
  rendered while a check is still running, whether or not the session is
  signed in. The comment at `src/components/PrivateRoute.js:58` mentions only
  the signed-in case; `PrivateRoute.ChildrenWhen` states the full condition.
- `CallHistory.HistoryScreen.InitiateCall`, `Contacts.CallContact`: the
  number comes from a fetched record, so it may be missing or not a string.
  `trim()` then throws inside the `try` before any request goes out, and the
  `catch` runs.

## Model

| member | source | states |
|---|---|---|
| Js.ContainsIffOccurs | src/context/AuthContext.js:49 | `s.includes(t)` holds exactly when `t` occurs at some index of `s` |
| Js.TrimShape | src/components/History/CallHistory.js:72 | `trim()` returns the slice between the leading and trailing whitespace; what it removes is all whitespace, and what it keeps neither starts nor ends with whitespace |
| Js.ToLowerMatches | src/components/History/CallHistory.js:134 | a lower-case word equals `s.toLowerCase()` exactly when `s` spells that word in any mix of letter case |
| Js.ParseNatToString | src/components/Dialer/CallScreen.js:39 | reading back the decimal digits of `n.toString()` gives `n` |
| Js.CanonicalRoundTrip | src/components/Auth/AuthForm.js:37 | a digit string without a leading zero is the `toString` of its value |
| Js.NatToStringLength | src/components/Auth/AuthForm.js:37 | for k the number of digits of `n.toString()`: n < 10^k, and 10^(k-1) <= n when n >= 1 |
| Js.NatToString | src/components/Dialer/CallScreen.js:39 | `n.toString()` is one or more decimal digits, a single digit exactly below 10, and has no leading zero when longer |
| Js.TrimIdempotent | src/components/History/CallHistory.js:72 | trimming what `trim()` returned removes nothing more |
| Js.ToLower | src/components/History/CallHistory.js:134 | `toLowerCase()` keeps the length and lowers each character on its own; only the ASCII capitals change |
| Http.ErrorText | src/components/History/CallHistory.js:58-61 | the text is truthy, and it is `data.message`, else `data.error`, else `error.message`, else the default, each taken only when the earlier ones are falsy |
| Http.ErrorTextIsFirstTruthy | src/components/Dialer/Dialer.js:82-85 | the same text is exactly the value of the four-operand `\|\|` chain |
| Http.ServerMessageOr | src/components/Contacts/Contacts.js:115 | `error.response?.data?.message \|\| default` is the first truthy of the two, and is always truthy |
| Http.Thrown | src/components/History/CallHistory.js:84-89 | an exception thrown inside the `try` before any request reaches the `catch` with no response and only its message |
| AuthContext.TransientIff | src/context/AuthContext.js:49 | an error is ignored exactly when its code is `ECONNABORTED`, no response arrived, or "timeout" occurs in its message |
| AuthContext.Session.constructor | src/context/AuthContext.js:9-14 | the session starts signed in exactly when the cache holds `'true'`; it starts loading with no user |
| AuthContext.Session.CheckAuthStatus | src/context/AuthContext.js:17-65 | one GET `/check-auth`. Status 200 with a body signs in, caches `'true'` and takes `data.user` only when truthy. Any other answer signs out and clears the cache. A timeout or missing response changes nothing. Any other failure signs out, clears the cache and keeps `user`, toasting exactly when the status is not 401. `loading` ends false on every path, and a cache that agreed with the belief still agrees |
| AuthContext.Session.Login | src/context/AuthContext.js:82-88 | sign in and cache at once; `user` changes only when `userData` is truthy |
| AuthContext.Session.Logout | src/context/AuthContext.js:90-100 | POST `/logout`, then signed out, `user` null and cache removed, whatever the outcome |
| AuthContext.CheckedBelief | src/context/AuthContext.js:32-55 | after a check the client is signed in exactly when a resolved answer has status 200 and a body, or when a transient failure meets an earlier sign-in |
| AuthContext.CheckedCache | src/context/AuthContext.js:32-55 | the cache becomes `'true'` on a confirming answer, is kept on a transient failure and is removed in every other case |
| AuthContext.CheckedUser | src/context/AuthContext.js:36-39 | the user changes only on a confirming answer with a truthy `data.user`, and then becomes it |
| AuthContext.CheckEvents | src/context/AuthContext.js:27-60 | one GET `/check-auth`, followed by the error toast exactly when the failure is not transient and its status is not 401 |
| AuthContext.CheckKeepsCacheInStep | src/context/AuthContext.js:32-55 | when the cache agrees with the belief before a check, it agrees after it, for every outcome |
| AuthContext.OnlyServerSignsIn | src/context/AuthContext.js:32-55 | a check never signs in a signed-out client unless the server confirms |
| CallApi.SidOf | src/components/Dialer/Dialer.js:72-73 | the identifier is truthy exactly when the body and its `callSid` are, and it is then `callSid` |
| CallApi.InitiateRequest | src/components/History/CallHistory.js:71-73 | POST `/initiateCall` whose body has the single field `phoneNumber`, the number trimmed |
| CallApi.EndRequest | src/components/History/CallHistory.js:102 | POST `/endCall` whose body has the single field `callSid`, the identifier |
| CallApi.InitiateSendsTrimmed | src/components/Dialer/Dialer.js:69 | the number sent neither starts nor ends with whitespace, and a number already trimmed is sent unchanged |
| Dialer.EndCallToasts | src/components/Dialer/Dialer.js:101-110 | an info toast exactly when the answer carries a truthy `message`, else none; the fallback-chain error toast on failure |
| Dialer.DialerScreen.constructor | src/components/Dialer/Dialer.js:31-34 | the number starts as `"+"` with no call |
| Dialer.DialerScreen.PressKey | src/components/Dialer/Dialer.js:47-53 | appends the key only below 15 characters and otherwise only warns; keeps 1 <= length <= 15 and the leading `+` |
| Dialer.DialerScreen.Backspace | src/components/Dialer/Dialer.js:55-59 | drops the last character only above length 1, so the `+` stays |
| Dialer.DialerScreen.Call | src/components/Dialer/Dialer.js:61-92 | below 8 characters: one error toast, no request, nothing changes. Otherwise POST the trimmed number. An answer with a `callSid` activates the call with that identifier; one without it only toasts; a failure resets all three call fields |
| Dialer.DialerScreen.EndCall | src/components/Dialer/Dialer.js:94-117 | a no-op without an identifier; otherwise POST `/endCall` and reset all three call fields for every outcome |
| Dialer.DialerScreen.Logout | src/components/Dialer/Dialer.js:39-45 | an active call is ended first, with its request and toasts, then POST `/logout` and go to `/auth`; without a call only the last two. The session is signed out, its `user` null and its cache removed, its `loading` unchanged; the call is reset |
| CallScreen.Pad2 | src/components/Dialer/CallScreen.js:39 | `padStart(2, '0')` prefixes one `0` to a single digit and leaves two or more digits as they are; the result reads back as `n` |
| CallScreen.FormatClock | src/components/Dialer/CallScreen.js:36-40 | the display is the padded minutes, a colon and the padded seconds of the minute; the last two digits read below 60 and the minute digits read `seconds / 60` |
| CallScreen.ClockRoundTrip | src/components/Dialer/CallScreen.js:36-40 | reading the `mm:ss` display back gives exactly the seconds counted |
| CallScreen.AvatarChar | src/components/Dialer/CallScreen.js:82 | `phoneNumber[1]` when it exists, else `'#'` |
| CallScreen.CallDialog.constructor | src/components/Dialer/CallScreen.js:19-29 | a timer runs from mounting exactly when open; counter zero, not muted |
| CallScreen.CallDialog.Tick | src/components/Dialer/CallScreen.js:26-28 | a live timer adds exactly one second, otherwise nothing changes |
| CallScreen.CallDialog.SetOpen | src/components/Dialer/CallScreen.js:23-34 | a change of `open` clears the old timer, zeroes the counter and starts a timer only when now open |
| CallScreen.CallDialog.Unmount | src/components/Dialer/CallScreen.js:30-33 | unmounting leaves no timer and a zero counter |
| CallScreen.CallDialog.ToggleMute | src/components/Dialer/CallScreen.js:42-50 | flips the flag; the toast names the state before the flip |
| CallHistory.StatusColor | src/components/History/CallHistory.js:133-144 | the colour is one of the four chip colours |
| CallHistory.StatusColorIff | src/components/History/CallHistory.js:133-144 | each colour is chosen by exactly the case variants of its word (completed, canceled, in-progress); anything else is `default` |
| CallHistory.StatusColorIgnoresCase | src/components/History/CallHistory.js:134 | labels equal up to case get the same colour |
| CallHistory.JsRem60 | src/components/History/CallHistory.js:149 | JavaScript's `%` by 60: the remainder differs from the dividend by a multiple of 60 and has its sign; in [0, 60) for non-negative input, in (-60, 0] for negative input |
| CallHistory.CallDurationRoundTrip | src/components/History/CallHistory.js:146-151 | for every non-negative duration, reading the `Xm Ys` / `Ys` display back gives the duration |
| CallHistory.RoundTripWithMinutes | src/components/History/CallHistory.js:148-150 | from one minute up, reading the display back gives the duration |
| CallHistory.FormatSecondsOnly | src/components/History/CallHistory.js:150 | below a minute, the display is the seconds followed by `s` |
| CallHistory.RoundTripSecondsOnly | src/components/History/CallHistory.js:150 | below a minute, reading the display back gives the duration |
| CallHistory.FalsyDurationIsZero | src/components/History/CallHistory.js:147 | a missing or zero duration reads `0s` |
| CallHistory.EndCallToasts | src/components/History/CallHistory.js:106-117 | exactly one toast: info when `data.success` is truthy, otherwise a warning; the fallback-chain error on failure |
| CallHistory.HistoryScreen.constructor | src/components/History/CallHistory.js:35-39 | empty list, loading, no call |
| CallHistory.HistoryScreen.FetchHistory | src/components/History/CallHistory.js:47-67 | the list and the events are those of `FetchedCalls` and `FetchHistoryEvents`: `data.calls` only when it is an array, otherwise empty with a toast; `loading` clears |
| CallHistory.HistoryScreen.InitiateCall | src/components/History/CallHistory.js:69-97 | a non-string number sends nothing, toasts the thrown error's message and resets the call. Otherwise POST the trimmed number. A `callSid` answer activates the call and stores the untrimmed number; one without only toasts; a failure toasts the fallback chain and resets the call |
| CallHistory.HistoryScreen.EndCall | src/components/History/CallHistory.js:99-126 | a no-op without an identifier; otherwise POST `/endCall`, exactly one toast, all three call fields reset, and the refetch's list and events as `FetchedCalls` and `FetchHistoryEvents` give them |
| CallHistory.HistoryScreen.Logout | src/components/History/CallHistory.js:128-131 | log out, then go to `/auth`; the session is signed out, `user` null, cache removed, `loading` unchanged |
| CallHistory.FormatCallDuration | src/components/History/CallHistory.js:146-151 | the display always ends in `s`, and is `0s` when the duration is missing or zero |
| CallHistory.FormatWithMinutes | src/components/History/CallHistory.js:148-150 | from one minute up, the display is the whole minutes, `m `, the seconds of the minute and `s` |
| CallHistory.NegativeDurationShowsRemainder | src/components/History/CallHistory.js:148-150 | a negative duration shows no minutes, only JavaScript's remainder and `s`: `0s` for whole minutes, otherwise `-` and the remainder's magnitude |
| CallHistory.FetchedCalls | src/components/History/CallHistory.js:50-63 | a fetch leaves `data.calls` when it is an array, otherwise an empty list; a non-empty list always comes from such an array |
| CallHistory.FetchHistoryEvents | src/components/History/CallHistory.js:49-62 | GET `/calls/history`, then no toast exactly when an array came back; the invalid-data toast or the fallback-chain error otherwise |
| CallHistory.SilentEmptyListIsEmptyArray | src/components/History/CallHistory.js:50-51 | an empty list with no toast means the server sent an empty array |
| Contacts.SaveRequest | src/components/Contacts/Contacts.js:104-110 | PUT `/contacts/{id}` exactly when editing, otherwise POST `/contacts`; the body is the form |
| Contacts.ContactsScreen.constructor | src/components/Contacts/Contacts.js:34-44 | empty list, loading, closed dialog, nothing edited, the four-field blank form |
| Contacts.ContactsScreen.SetSearchTerm | src/components/Contacts/Contacts.js:179 | the search field sets the term |
| Contacts.ContactsScreen.FetchContacts | src/components/Contacts/Contacts.js:52-66 | the list and events are those of `FetchedContacts` and `FetchEvents`; the search term is the one sent and is unchanged; `loading` clears |
| Contacts.ContactsScreen.DialogOpen | src/components/Contacts/Contacts.js:68-82 | opens the dialog; editing a contact loads it as the form, a new one gets the blank form |
| Contacts.ContactsScreen.DialogClose | src/components/Contacts/Contacts.js:84-93 | closed, nothing edited, blank form |
| Contacts.ContactsScreen.InputChange | src/components/Contacts/Contacts.js:95-100 | only the named field changes |
| Contacts.ContactsScreen.Submit | src/components/Contacts/Contacts.js:102-117 | sends the save request. On success: a create/update toast, the dialog closes with a blank form, and the list and remaining events are those of the refetch with the unchanged search term. On failure: the server message or default toast, nothing else changes |
| Contacts.ContactsScreen.DeleteContact | src/components/Contacts/Contacts.js:119-130 | without confirmation: no request and no change. With it: DELETE `/contacts/{id}`; on success a toast and the refetch's list and events with the unchanged search term; on failure only the error toast |
| Contacts.CallContact | src/components/Contacts/Contacts.js:132-147 | a non-string number sends nothing and shows the failure toast. Otherwise POST the trimmed number; a success toast exactly when a `callSid` comes back, otherwise the failure toast |
| Contacts.ContactPath | src/components/Contacts/Contacts.js:105 | the path is `/contacts/` followed by the identifier, never the list path itself |
| Contacts.ContactPathsDistinct | src/components/Contacts/Contacts.js:122 | two different string identifiers address two different paths |
| Contacts.ListRequest | src/components/Contacts/Contacts.js:54-58 | GET `/contacts` with the search term as its only query parameter |
| Contacts.FetchedContacts | src/components/Contacts/Contacts.js:59-62 | a readable answer leaves `data.contacts`, or `[]` when falsy, so the list is truthy; a failure or an unreadable body keeps the old list |
| Contacts.FetchEvents | src/components/Contacts/Contacts.js:54-62 | the list request, then the failure toast exactly when the answer could not be read |
| Contacts.FetchKeepsOrReplaces | src/components/Contacts/Contacts.js:59-62 | a fetch that toasts keeps the list; one that does not leaves a truthy list |
| AuthForm.LoginIgnoresOtherFields | src/components/Auth/AuthForm.js:16-23 | the login schema depends on the username and password fields only |
| AuthForm.PhoneDigits | src/components/Auth/AuthForm.js:37 | a matching phone is `+` and the `toString` of a number between 10 and 10^15 |
| AuthForm.NumberMatches | src/components/Auth/AuthForm.js:37 | `+` and the `toString` of any number between 10 and 10^15 matches |
| AuthForm.PhoneMatchesIsE164 | src/components/Auth/AuthForm.js:35-37 | the phone rule accepts exactly `+` followed by a decimal number of 2 to 15 digits with no leading zero (ITU-T E.164, clause 6: at most 15 digits) |
| AuthForm.InitialValues | src/components/Auth/AuthForm.js:67-69 | two empty fields to sign in, four to register |
| AuthForm.InitialValuesInvalid | src/components/Auth/AuthForm.js:16-38 | neither blank form passes either schema |
| AuthForm.Landing | src/components/Auth/AuthForm.js:51 | the redirect-from path when non-empty, otherwise `/dialer` |
| AuthForm.AuthFormScreen.constructor | src/components/Auth/AuthForm.js:14 | starts in login mode with the login blank form |
| AuthForm.AuthFormScreen.ToggleMode | src/components/Auth/AuthForm.js:79 | flips the mode; the form reinitialises to that mode's blank values |
| AuthForm.AuthFormScreen.HandleChange | src/components/Auth/AuthForm.js:100 | only the named field changes |
| AuthForm.AuthFormScreen.HandleSubmit | src/components/Auth/AuthForm.js:40-65 | POST the values to `/login` or `/register`. A body on login: toast, reset, sign in, navigate to the landing path. A body on register: toast, reset, switch to login, no sign-in. No body: nothing. Failure: the mode's message toast and no sign-in. `submitting` ends false on every path |
| AuthForm.RegisterImpliesLogin | src/components/Auth/AuthForm.js:16-38 | a form that passes the registration schema (`registerSchema`) also passes the login schema (`loginSchema`), and its phone matches the phone rule |
| Auth.SubmitRequest | src/components/Auth/Auth.js:43-50 | login posts exactly `{username, password}`; register posts the whole form; the values are the form's |
| Auth.LoginSendsOnlyCredentials | src/components/Auth/Auth.js:43-47 | e-mail and phone number never reach `/login`, and changing them leaves the login request as it was |
| Auth.AuthPage.constructor | src/components/Auth/Auth.js:18-25 | login mode, the four-field blank form, not loading |
| Auth.AuthPage.HandleInputChange | src/components/Auth/Auth.js:31-36 | only the named field changes, and the form keeps its four fields |
| Auth.AuthPage.ToggleMode | src/components/Auth/Auth.js:173 | flips the mode; the typed form is kept |
| Auth.AuthPage.StartSubmit | src/components/Auth/Auth.js:38-50 | `loading` is true while the request is in flight |
| Auth.AuthPage.FinishSubmit | src/components/Auth/Auth.js:52-60 | any resolved answer signs in, toasts and goes to `/dialer`; a failure only toasts the server message or default and leaves the session alone; `loading` ends false |
| Auth.AuthPage.HandleSubmit | src/components/Auth/Auth.js:38-61 | the request, then the outcome's events; on success signed in and cached with `user` and `loading` unchanged; on failure the session is unchanged |
| PrivateRoute.Decide | src/components/PrivateRoute.js:34-59 | the loader exactly when a check is loading and the loader has not timed out; a redirect to `/auth`, remembering the location, exactly when nothing is loading and the session is signed out; otherwise the page |
| PrivateRoute.ChildrenWhen | src/components/PrivateRoute.js:53-59 | the page shows exactly when signed in with nothing loading, or when the loader timed out during a check, whatever the session believes |
| PrivateRoute.SettledDecision | src/components/PrivateRoute.js:35-56 | with both checks settled, the loader flag is irrelevant and the session alone decides |
| PrivateRoute.Guard.constructor | src/components/PrivateRoute.js:9-10 | the loader shows and the local check is pending |
| PrivateRoute.Guard.RefreshAuth | src/components/PrivateRoute.js:13-23 | with `sid=` in the cookie string the session check runs and the session's belief, cache, user and events are those the check gives, with `loading` cleared; without it nothing happens. The local flag clears either way |
| PrivateRoute.Guard.Expire | src/components/PrivateRoute.js:26-32 | the timeout hides the loader |
| PrivateRoute.MountWithCookie | src/components/PrivateRoute.js:13-59 | after the refresh with a session cookie the view is the check's verdict; a transient failure keeps the earlier belief |
| PrivateRoute.Guard.View | src/components/PrivateRoute.js:34-59 | the render for the guard's and the session's current flags: the loader, the redirect and the page under exactly the conditions of the three branches |
| BottomNav.TabIndex | src/components/common/BottomNav.js:20-26 | the tab is in {0, 1, 2}: 1 exactly for `/contacts`, 2 exactly for `/history`, 0 for every other path |
| BottomNav.TabPath | src/components/common/BottomNav.js:44-53 | a path exactly for the indexes 0, 1 and 2 |
| BottomNav.OnChange | src/components/common/BottomNav.js:43-57 | indexes 0 to 2 navigate to their tab's path; any other index does nothing |
| BottomNav.TabRoundTrip | src/components/common/BottomNav.js:20-26 | for each tab, the path it navigates to selects that tab again |
| BottomNav.PathRoundTrip | src/components/common/BottomNav.js:20-26 | a path is recovered from its tab exactly when it is one of the three tab paths |
| BottomNav.TabPathsDistinct | src/components/common/BottomNav.js:44-53 | the three tabs lead to three different paths |

## Left out

- Markup, styling and the MUI theme: these are presentation.
- The five-minute revalidation interval (src/context/AuthContext.js:72-77). Its callback captures the
  first render's `isAuthenticated`, and that depends on React's closure semantics. The mount-time
  check is an ordinary `Session.CheckAuthStatus` call.
- React scheduling: `setState` batching, re-render timing and interleavings of concurrent handlers.
  Each handler runs to completion with its awaited outcomes given.
- Dialer.DialerScreen.Call: the call screen is wired to the dialer by re-rendering. The model keeps
  the two as separate classes.
- The 5 s request timeout (src/context/AuthContext.js:28) is not modelled as a clock. A timeout
  reaches the model as a `Failed` outcome with code `ECONNABORTED`.
- The HTTP transport, cookies, `window.confirm`, toasts, `navigate` and the console. The model
  passes these in as parameters or returns them as events.
- AuthForm.RegisterValid: Yup's e-mail format test is the parameter `isEmail`. Its definition
  belongs to the library.
- AuthForm.AuthFormScreen.HandleSubmit: Formik runs the schema before calling the handler, and it
  owns `isSubmitting`. The model takes the values as already validated and sets the flag itself.
- AuthForm.Landing: `location.state.from.pathname` is taken as an optional string. A non-string
  pathname is not modelled.
- CallHistory.StatusColor: the model takes the status as a string. In the code a record whose
  `status` is missing, null or a number makes `toLowerCase()` (src/components/History/CallHistory.js:134)
  throw a `TypeError` while the list renders (src/components/History/CallHistory.js:246); that
  failure is not modelled.
- CallHistory.FormatCallDuration: durations are integers. Fractional or string durations, and
  the date-fns `format` of timestamps, are not modelled.
- Js.ToLower: only ASCII letters are lowered. Unicode case mapping is not modelled.
- Lengths are counted in Unicode scalar values. JavaScript counts UTF-16 code units, which
  differs only for characters outside the Basic Multilingual Plane.
- JSON serialisation of request bodies, e.g. dropping `undefined` fields: bodies are kept as values.
- Contacts.ContactsScreen.FetchContacts: a truthy `data.contacts` that is not an array is stored
  as it is, as in the code. Rendering it is out of scope.
- Contacts.ContactsScreen.SetSearchTerm: typing a term does not fetch by itself. The next fetch
  sends it: pressing Enter in the search field (src/components/Contacts/Contacts.js:180), the
  search button (src/components/Contacts/Contacts.js:190), or the refetch after a save or a delete.
  The model lets a caller run `FetchContacts` at any time for the first two.
- CallHistory.HistoryScreen.InitiateCall: the text of the `TypeError` that `trim()` throws on a
  non-string number belongs to the JavaScript engine. It is the parameter `thrown`.
- src/components/Auth/PrivateRoute.js and src/App.js are not part of this model. They are routing
  wiring, and `PrivateRoute.Decide` subsumes the simpler guard.
