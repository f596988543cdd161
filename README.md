# DevConnect client state, modelled in Dafny

This project models the client half of DevConnect, a developer-networking web application. It covers
the rules by which the React client keeps its own state:

- **Dashboard** (`dashboard.dfy`, module `Dashboard`). This is the open chat's message list, the draft
  being typed and the set of online users. They are fields of the class `ChatView`, changed by the
  socket handlers (`newMessage`, `userOnline`, `userOffline`) and by loading and sending messages.
  A send is optimistic. `BeginSend` shows the trimmed draft at once under a temporary id taken from
  the clock. `ResolveSend` later applies the server's answer to whatever the list holds by then: the
  server's record replaces the draft, or a refusal removes it, or a thrown error leaves it in place.
  The module also holds the discover-list search and `getAuthHeaders`.
- **Socket hook** (`socket.dfy`, module `Socket`). This is the reconnect counter with at most five
  attempts, the delay `min(1000·2^n, 30000)` ms, the reducers for `skills` and `uploadProgress`, and
  the guards that let `updateSkill`, `addSkill` and `deleteSkill` emit only on a connected socket.
- **Registration** (`register.dfy`, module `Register`). This is the form, the two checks made before
  sending (passwords match, then length at least 6), the six-field payload, and the precedence that
  picks the error text.
- **API helpers** (`api.dfy`, module `Api`). These are the interceptors that attach
  `Authorization: Bearer <token>` and forget the token on a 401 (section 15.5.2 of RFC 9110),
  `isAuthenticated`, `handleApiError`, and the token handling of `login` and `logout`.
- **Developer search** (`search.dfy`, module `Search`). Clicking a letter keeps the developers whose
  name starts with it, in either case.

Shared modules: `Wrappers` (optional values and JavaScript truthiness of an optional string), `Text`
(`toLowerCase`, `startsWith`, `includes`, `trim`), `Seqs` (`filter`, and what keeping the order
means) and `Bearer` (the credential of section 2.1 of RFC 6750).

JavaScript's `if (token)` is false for a missing value and for the empty string. The model keeps
that distinction through `Wrappers.Truthy`: an empty stored token counts as no token.

Two things the model makes explicit:

- Message ids. A server record's `_id` is a string and a draft's temporary id is the number
  `Date.now()`, so `===` never equates them. `MsgId` has one constructor for each. As a result,
  reconciling a send can only touch drafts (`Dashboard.ServerEntriesNeverTemp`).
- Token keys. The API helpers store and read the token under `authToken`. The dashboard reads
  `token` (Dashboard.js line 56), and the login and registration pages write `token`. So a token
  stored by those pages is never attached by the request interceptor, and `isAuthenticated` does
  not see it (`Api.PageTokenInvisible`).

A send the server refuses removes the draft. A send whose request throws leaves the draft in
place, unmarked (`Dashboard.ChatView.ResolveSend`).

## Model

| member | source | states |
|---|---|---|
| `Text.Lower` | client/src/components/Dashboard.js:435-437 | lowering keeps the length and lowers each character; it is the `toLowerCase` both searches apply |
| `Text.LowerIdempotent` | client/src/components/DeveloperSearch.js:19 | lowering an already lowered string changes nothing |
| `Text.ContainsIffOccurs` | client/src/components/Dashboard.js:435-437 | `includes` holds exactly when some window of the string equals the term |
| `Text.ContainsEmpty` | client/src/components/Dashboard.js:435-437 | the empty search term is included in every present field |
| `Text.TrimEmptyIff` | client/src/components/Dashboard.js:166 | `!newMessage.trim()` holds exactly when the draft is all white space |
| `Text.TrimIsInnerSlice` | client/src/components/Dashboard.js:178 | the trimmed text is a slice of the draft that neither starts nor ends with white space |
| `Seqs.Filter` | client/src/components/Dashboard.js:434-438 | a filter result is no longer than its input, holds only passing input elements, and holds every passing one |
| `Seqs.FilterIsSubsequence` | client/src/components/Dashboard.js:214 | a filter keeps the surviving elements in their original order |
| `Seqs.FilterCount` | client/src/hooks/useWebSocket.js:68 | a filter keeps every copy of a passing element and drops every copy of a failing one |
| `Seqs.FilterConcat` | client/src/hooks/useWebSocket.js:67-69 | filtering a concatenation filters each part |
| `Bearer.CredentialsRoundTrip` | client/src/services/api.js:20 | the `Bearer <token>` value carries exactly the token it was built from |
| `Bearer.CredentialsInjective` | client/src/components/Dashboard.js:64 | different tokens never give the same header |
| `Dashboard.AuthHeaders` | client/src/components/Dashboard.js:55-66 | headers exist exactly when a non-empty token is stored; then they are the JSON content type plus a bearer credential for that token |
| `Dashboard.History` | client/src/components/Dashboard.js:145-152 | the loaded history maps each server message one to one, in order, own exactly when the sender is the current user |
| `Dashboard.Reconcile` | client/src/components/Dashboard.js:198-211 | the success `map` keeps the length and every entry without the temporary id; `ReconcileReplacesOnlyTemp` gives the rest |
| `Dashboard.ReconcileReplacesOnlyTemp` | client/src/components/Dashboard.js:198-211 | on success only entries with the temporary id become the server record; length and all other entries stay |
| `Dashboard.Retract` | client/src/components/Dashboard.js:214 | the refusal `filter` leaves no entry with the temporary id and never grows the list; `RetractKeepsOthersInOrder` gives the rest |
| `Dashboard.RetractKeepsOthersInOrder` | client/src/components/Dashboard.js:212-214 | on a non-ok answer no entry with the temporary id is left; every other entry stays, as many times as it occurred, in order |
| `Dashboard.ServerEntriesNeverTemp` | client/src/components/Dashboard.js:145-152 | entries built from server records never carry a temporary id |
| `Dashboard.SendThenDelivered` | client/src/components/Dashboard.js:172-211 | draft then success puts the server record in the draft's slot, whatever arrived around it |
| `Dashboard.SendThenRefused` | client/src/components/Dashboard.js:172-214 | draft then refusal leaves the list as if the draft had never been shown |
| `Dashboard.ApplyPresence` | client/src/components/Dashboard.js:96-106 | `userOnline` adds and `userOffline` removes exactly that id; no other id changes |
| `Dashboard.LastEventDecides` | client/src/components/Dashboard.js:96-106 | after any stream of presence events a user is online exactly when the last event about them was `userOnline`; repeats are harmless |
| `Dashboard.FilterDiscoverUsers` | client/src/components/Dashboard.js:434-438 | every listed user is a matching user from the input; `DiscoverKeepsExactlyMatches` adds that every match is listed |
| `Dashboard.DiscoverKeepsExactlyMatches` | client/src/components/Dashboard.js:434-438 | a user is listed exactly when a present name, role or place contains the term, ignoring case |
| `Dashboard.DiscoverOrderPreserving` | client/src/components/Dashboard.js:434-438 | the filtered list keeps the order of `discoverUsers` |
| `Dashboard.DiscoverIgnoresCase` | client/src/components/Dashboard.js:434-438 | a term and its lower-case form list the same users |
| `Dashboard.DiscoverEmptyTerm` | client/src/components/Dashboard.js:434-438 | an empty search lists exactly the users with at least one of name, role and place |
| `Dashboard.ChatView.constructor` | client/src/components/Dashboard.js:24-29 | no chat selected, no messages, empty draft, nobody online |
| `Dashboard.ChatView.StartChat` | client/src/components/Dashboard.js:127-131 | the chosen connection becomes the open conversation; the history load it starts is `LoadMessages` |
| `Dashboard.ChatView.EditDraft` | client/src/components/Dashboard.js:1665 | typing replaces the draft |
| `Dashboard.ChatView.HandleNewMessage` | client/src/components/Dashboard.js:80-94 | a pushed message is appended, not own, only when its sender is the open chat's peer; otherwise the list is unchanged |
| `Dashboard.ChatView.HandleUserOnline` | client/src/components/Dashboard.js:96-98 | the online set gains that id |
| `Dashboard.ChatView.HandleUserOffline` | client/src/components/Dashboard.js:100-106 | the online set loses that id only |
| `Dashboard.ChatView.LoadMessages` | client/src/components/Dashboard.js:133-163 | with a token and an ok answer the list becomes the mapped history, else it stays; loading is off afterwards |
| `Dashboard.ChatView.BeginSend` | client/src/components/Dashboard.js:165-193 | blank draft, no open chat or no token: nothing changes; otherwise one draft entry with `Temp(now)`, the trimmed text and own set is appended, the box is cleared, and the post carries that text to the peer |
| `Dashboard.ChatView.ResolveSend` | client/src/components/Dashboard.js:195-221 | success reconciles the temporary id, a non-ok answer retracts it, a thrown error leaves the list as it is |
| `Dashboard.SendRoundTrip` | client/src/components/Dashboard.js:165-221 | it changes only the message list and the draft; with nothing else arriving and a draft shown, the draft is cleared and success ends with the server record appended, a refusal with the list as before, and a thrown error with the draft still appended; when nothing was sent the list and draft are unchanged whatever the outcome |
| `Socket.ReconnectDelay` | client/src/hooks/useWebSocket.js:37 | every reconnect delay lies between 1 and 30 seconds |
| `Socket.ReconnectDelayMonotone` | client/src/hooks/useWebSocket.js:37 | a later attempt never waits less than an earlier one |
| `Socket.ReconnectDelaySchedule` | client/src/hooks/useWebSocket.js:35-37 | attempts 1 to 5 wait 2, 4, 8, 16 and 30 seconds |
| `Socket.DisconnectStep` | client/src/hooks/useWebSocket.js:30-44 | one disconnect schedules a reconnect exactly when the reason is not a manual close and attempts are left; the counter then rises by one and the delay uses the new count |
| `Socket.StormDelaysCounted` | client/src/hooks/useWebSocket.js:30-44 | a run of disconnects schedules no more reconnects than attempts left, the i-th after the delay for the count it raised |
| `Socket.StormBounded` | client/src/hooks/useWebSocket.js:12-13 | from a fresh counter, at most five reconnects are scheduled, each within 30 seconds and none sooner than the previous one |
| `Socket.UpdateSkills` | client/src/hooks/useWebSocket.js:57-61 | the `skillUpdated` map keeps the length and every skill with another id; `UpdateSkillsReplacesMatching` gives the rest |
| `Socket.UpdateSkillsReplacesMatching` | client/src/hooks/useWebSocket.js:57-61 | `skillUpdated` replaces every skill with that id; length and other skills stay |
| `Socket.DeleteSkills` | client/src/hooks/useWebSocket.js:67-69 | the `skillDeleted` filter keeps only input skills with another id; `DeleteSkillsRemovesAll` adds that each survives with its multiplicity, in order |
| `Socket.DeleteSkillsRemovesAll` | client/src/hooks/useWebSocket.js:67-69 | `skillDeleted` leaves no skill with that id; every other skill stays, as many times as it occurred, in order |
| `Socket.AddThenDelete` | client/src/hooks/useWebSocket.js:63-69 | deleting a freshly added id restores the list |
| `Socket.UploadLeavesNoTrace` | client/src/hooks/useWebSocket.js:76-97 | progress, completion and cleanup of one file leave no entry for it and every other entry as it was |
| `Socket.SocketHook.constructor` | client/src/hooks/useWebSocket.js:6-13 | no socket, not connected, no skills, no progress, no error, counter zero |
| `Socket.SocketHook.Connect` | client/src/hooks/useWebSocket.js:15-21 | a created socket is kept; a creation failure sets the "Failed to connect" error |
| `Socket.SocketHook.OnConnect` | client/src/hooks/useWebSocket.js:23-28 | connected, error cleared, counter reset to 0 |
| `Socket.SocketHook.OnDisconnect` | client/src/hooks/useWebSocket.js:30-44 | a reconnect is scheduled exactly when the reason is not a manual close and fewer than 5 attempts were made; the counter then rises by one and the delay uses the new count; the counter never exceeds 5; counter and delay are those of `DisconnectStep`, the step the storm lemmas fold |
| `Socket.SocketHook.OnConnectError` | client/src/hooks/useWebSocket.js:46-50 | the "Connection failed" error is set and the hook is not connected |
| `Socket.SocketHook.Disconnect` | client/src/hooks/useWebSocket.js:106-117 | socket dropped and not connected |
| `Socket.SocketHook.OnSkillsData` | client/src/hooks/useWebSocket.js:53-55 | the skills list is replaced wholesale |
| `Socket.SocketHook.OnSkillUpdated` | client/src/hooks/useWebSocket.js:57-61 | the skills list becomes the matching-id update of the old one |
| `Socket.SocketHook.OnSkillAdded` | client/src/hooks/useWebSocket.js:63-65 | the skill is appended at the end |
| `Socket.SocketHook.OnSkillDeleted` | client/src/hooks/useWebSocket.js:67-69 | the skills list loses every skill with that id |
| `Socket.SocketHook.OnSkillsBulkAdded` | client/src/hooks/useWebSocket.js:71-73 | the new skills are appended at the end, in order |
| `Socket.SocketHook.OnUploadProgress` | client/src/hooks/useWebSocket.js:76-81 | only the named file's progress is set |
| `Socket.SocketHook.OnUploadComplete` | client/src/hooks/useWebSocket.js:83-88 | only the named file's progress becomes 100 |
| `Socket.SocketHook.ClearUploadProgress` | client/src/hooks/useWebSocket.js:89-96 | only the named file's key is deleted |
| `Socket.SocketHook.UpdateSkill` | client/src/hooks/useWebSocket.js:120-124 | emits `updateSkill` with id and level exactly when a socket exists and is connected |
| `Socket.SocketHook.AddSkill` | client/src/hooks/useWebSocket.js:126-130 | emits `addSkill` exactly when a socket exists and is connected |
| `Socket.SocketHook.DeleteSkill` | client/src/hooks/useWebSocket.js:132-136 | emits `deleteSkill` exactly when a socket exists and is connected |
| `Register.Validate` | client/src/components/Register.js:33-41 | mismatched passwords give the mismatch text whatever their length; matching passwords shorter than 6 give the length text; otherwise no error |
| `Register.Payload` | client/src/components/Register.js:48-55 | the posted object carries the six form fields other than the confirmation, each taken from the form; `PayloadIsSixFields` gives the converse |
| `Register.PayloadIsSixFields` | client/src/components/Register.js:48-55 | two forms post the same payload exactly when they agree on every field but the confirmation |
| `Register.PayloadIgnoresConfirmation` | client/src/components/Register.js:48-55 | the confirmation never reaches the server |
| `Register.ErrorText` | client/src/components/Register.js:83-93 | the error text is never empty; `ErrorTextIsFirstCandidate` fixes which candidate wins |
| `Register.ErrorTextIsFirstCandidate` | client/src/components/Register.js:83-93 | the error text is the first present item of: timeout text, network text, server message, error message; else the default |
| `Register.ErrorTextNonEmpty` | client/src/components/Register.js:83-93 | the error text shown is never empty |
| `Register.TransportCodesWin` | client/src/components/Register.js:85-88 | a timeout or network code hides any server or error message |
| `Register.RejectionError` | client/src/components/Register.js:77-79 | an answer with `success` false shows its message, or "Registration failed" |
| `Register.RegisterPage.constructor` | client/src/components/Register.js:7-20 | empty form, no error, not loading, no success banner |
| `Register.RegisterPage.HandleChange` | client/src/components/Register.js:23-27 | only the named field changes, and the error is cleared |
| `Register.RegisterPage.BeginSubmit` | client/src/components/Register.js:29-55 | a failed check sets its text and sends nothing; otherwise loading starts, the error is cleared and the six-field payload is sent |
| `Register.RegisterPage.FinishSubmit` | client/src/components/Register.js:58-98 | success shows the banner; a failure shows its chosen text; loading ends in every case |
| `Api.WithAuthorization` | client/src/services/api.js:16-23 | with a stored token the headers gain a bearer credential for it and keep all others; without one they are unchanged |
| `Api.InterceptorAddsHeaderIffAuthenticated` | client/src/services/api.js:16-23 | a request gains an `Authorization` header exactly when a token is stored |
| `Api.PageTokenInvisible` | client/src/services/api.js:18 | a token stored under the pages' `token` key changes neither `isAuthenticated` nor the request headers |
| `Api.RequestInterceptor` | client/src/services/api.js:16-27 | the config's headers become the authorised form of the old ones |
| `Api.AfterResponseError` | client/src/services/api.js:30-39 | the interceptor only removes stored items, and never one other than `authToken`; `ResponseErrorLogsOutOn401` says when it removes that one |
| `Api.ResponseErrorLogsOutOn401` | client/src/services/api.js:30-39 | after a 401 the client is no longer authenticated; any other error leaves storage as it was |
| `Api.ResponseErrorInterceptor` | client/src/services/api.js:30-40 | a 401 removes the stored token; the same error is rejected to the caller in every case |
| `Api.IsAuthenticated` | client/src/services/api.js:390-392 | true exactly when a non-empty token is stored |
| `Api.HandleApiError` | client/src/services/api.js:405-428 | a server response gives its status, data and message or the default; a request without response gives the fixed network text; anything else its own message or the default; status is present exactly in the first case; the message is never empty |
| `Api.LoginLogoutSession` | client/src/services/api.js:254-289 | a login with a token authenticates with that token; a reply without a token leaves storage unchanged; a login refused with 401 ends any earlier session, since its request passes the response interceptor, and any other failure leaves storage unchanged; a logout always ends the session and touches no other item |
| `Api.Login` | client/src/services/api.js:254-265 | the token is stored only when the reply has one; a failure first passes the response interceptor, so a 401 removes the stored token, and is then rethrown; the reply is returned on success |
| `Api.Logout` | client/src/services/api.js:279-289 | the token is removed on success and on failure; a failure is rethrown |
| `Search.LetterFilter` | client/src/components/DeveloperSearch.js:19 | every result is a developer from the list whose lowered name starts with the lowered letter; `LetterFilterExact` adds that every such developer is listed |
| `Search.LetterFilterExact` | client/src/components/DeveloperSearch.js:19 | every result's lowered name starts with the lowered letter, and every developer whose name does is a result |
| `Search.LetterFilterOrdered` | client/src/components/DeveloperSearch.js:19 | the results keep the order of the list |
| `Search.LetterCaseIrrelevant` | client/src/components/DeveloperSearch.js:19 | the upper- and lower-case forms of a letter give the same results |
| `Search.DeveloperSearchPage.constructor` | client/src/components/DeveloperSearch.js:15 | no results before the first click |
| `Search.DeveloperSearchPage.HandleLetterClick` | client/src/components/DeveloperSearch.js:18-21 | a click's results replace the previous ones rather than adding to them |

## Left out

- HTTP requests (`fetch`, `axios`) are not modelled. Each operation takes the outcome of its request as a parameter: ok with a body, non-ok, or thrown.
- Toasts, `alert`, `navigate` and `window.location` redirects are not modelled. They are user-interface side effects.
- `localStorage` in the dashboard and registration page is not modelled as storage. The dashboard's methods take the stored token and user id as parameters.
- The registration page's success path stores `token` and `user` and navigates after a 2-second timer. That storage and the timer are not modelled; `FinishSubmit` only raises the success banner.
- Socket.IO itself (`io(...)`, `emit`, listener registration) is not modelled. `Connect` takes whether creation threw, and the emit guards return the event they would send.
- Timers (`setTimeout`, `clearTimeout`) are not modelled. `OnDisconnect` returns the delay it would schedule, and the upload cleanup is its own method, `ClearUploadProgress`.
- `uploadFile`, `uploadSkills` and the other request wrappers in api.js are not modelled. Each is one request whose outcome is passed through (`skillsAPI`, `uploadAPI`, `analyticsAPI`, `userAPI`, `register`, `refreshToken`, `getCurrentUser`, `deleteAccount`, `getAuthToken`, `clearAuthToken`).
- The upload percentage computed with `Math.round` is not modelled, because it is floating point.
- `formatTime`, `formatDate` and the date separators are not modelled. They depend on `Intl`, the locale and the clock. Timestamps stay opaque (`Dashboard.Stamp`).
- JSX rendering, `Home.js`, `Navbar.js`, `App.js`, `Login.js`, `DeveloperProfile.js`, the two context providers and the build configuration are not modelled. They are user interface or configuration with no state rules.
- The server's connection-request lifecycle, presence registry and message store are not part of this model. Their code is not in the client sources.
- Text.Lower: maps only the ASCII letters A to Z. JavaScript's `toLowerCase` also maps other Unicode letters.
- Register.Validate: measures the password in characters, while JavaScript's `length` counts UTF-16 code units. The two agree outside the astral planes.
- Socket.SocketHook.OnUploadProgress: takes progress as an integer, while the event may carry any JavaScript number.
- Dashboard.ChatView.BeginSend: takes `Date.now()` as the parameter `now`. Two sends in the same millisecond would share a temporary id. The reconcile lemmas therefore require that no other entry carries that id.
