# NLW Heat clients: message feed and GitHub sign-in, modelled in Dafny

The repository holds two thin front-ends for a chat feed with GitHub login: a
mobile app and a web app. Three pieces of logic in them are modelled here:

- **Message feed** (`mobile/src/components/MessageList/index.tsx`). A module-level
  FIFO of pending messages grows with every `new_message` socket push. A timer
  tick on a non-empty queue shifts off its head and rebuilds the display window
  as `[head, prev[0], prev[1]].filter(Boolean)`: a truthy head goes to the front,
  and falsy entries (a `null` payload, or slots past the end of a short window)
  are dropped. A tick on an empty queue does nothing. The initial `messages/last3`
  fetch replaces the window wholesale. Module `MessageFeed`: the class `Feed`
  holds the queue and the window; the pure functions `NextWindow` and `Apply`
  specify it; lemmas relate whole event traces (FIFO order, the shape of the
  window after several ticks).
- **Mobile sign-in** (`mobile/src/hooks/auth/index.tsx`). GitHub OAuth 2.0
  authorization-code flow (section 4.1 of RFC 6749). The `access_denied` error of
  section 4.1.2.1 suppresses the exchange. The session is kept in the device
  store under `@nlwheat:user` and `@nlwheat:token`, and in the HTTP client's
  `Authorization: Bearer <token>` header (section 2.1 of RFC 6750). Module
  `MobileAuth`: the class `AuthProvider` mirrors the `try`/`catch`/`finally`
  control flow step by step. The step functions `SignInStep`, `SignOutStep` and
  `RestoreStep` specify it, and lemmas tie sign-in and sign-out to the next
  restore.
- **Web sign-in** (`web/src/contexts/auth.tsx`). The GitHub code is cut out of the
  page address with `url.includes('?code=')` and `url.split('?code=')`. It is
  exchanged for a token, the token is kept under `@dowhile:token`, and the
  header is set. Module `TextSearch` models JavaScript `includes`/`split`/`join`.
  Module `WebAuth` holds the extraction, the step functions and the class
  `AuthProvider`.

Module `Wrappers` holds `Option`, `Attempt` (a call that resolves or
throws/rejects), store lookup and JavaScript truthiness of a stored string. Module
`Http` holds the GitHub authorize endpoint and the bearer header.

External results are method parameters:

- the authorization session's response;
- the backend's answer to `POST authenticate`, a function from the code sent to
  the answer;
- the answer to `GET profile`;
- whether each store write, removal or read succeeded.

Three behaviours of the code are easy to miss:

- In mobile sign-out, `setUser(null)` runs only after both store removals
  succeed, so a failed removal leaves the user signed in (`MobileAuth.SignOutStep`).
- Restore tests JavaScript truthiness, not presence, so a stored empty token is
  not restored (`SignInThenRelaunch`, `SignInThenReload`).
- The initial fetch replaces the window with the fetched list without cutting it
  to three; only ticks bound the window to three entries.

## Model

| member | source | states |
|---|---|---|
| `Http.Bearer` | mobile/src/hooks/auth/index.tsx:55 | the header is `Bearer ` followed by exactly the token, so the token can be read back from it |
| `Wrappers.IsTruthyText` | web/src/contexts/auth.tsx:60 | a read string is truthy only when present and non-empty; `null` and `""` are falsy |
| `TextSearch.Contains` | web/src/contexts/auth.tsx:71 | `includes` can hold only when the separator is no longer than the text, and always holds for the empty separator |
| `TextSearch.AbsentFirstChar` | web/src/contexts/auth.tsx:71 | text lacking the separator's first character does not include the separator |
| `TextSearch.FindFrom` | web/src/contexts/auth.tsx:71 | the result is the first occurrence of the separator at or after the start index; none is reported only when none exists |
| `TextSearch.Find` | web/src/contexts/auth.tsx:71 | `includes` is false exactly when no occurrence is found; a found index is an occurrence with none before it |
| `TextSearch.Split` | web/src/contexts/auth.tsx:74 | `split` always yields at least one piece |
| `TextSearch.SplitSeveral` | web/src/contexts/auth.tsx:71-74 | the text splits into one piece exactly when it does not contain the separator |
| `TextSearch.SplitPiecesFree` | web/src/contexts/auth.tsx:74 | no piece of a split contains the separator |
| `TextSearch.JoinSplit` | web/src/contexts/auth.tsx:74 | joining the pieces with the separator gives back the original text |
| `TextSearch.SplitAround` | web/src/contexts/auth.tsx:74 | two separator-free pieces joined by a non-self-overlapping separator split back into exactly those two pieces |
| `MessageFeed.Take` | mobile/src/components/MessageList/index.tsx:33-34 | the result is the first `n` elements of `s`, or all of `s` when it is shorter |
| `MessageFeed.KeepTruthy` | mobile/src/components/MessageList/index.tsx:35 | `filter(Boolean)` keeps only messages, never grows the list, and leaves an all-message list unchanged |
| `MessageFeed.KeepTruthyAppend` | mobile/src/components/MessageList/index.tsx:35 | `filter(Boolean)` of a concatenation is the concatenation of the filtered parts, so each entry is kept or dropped on its own and order is preserved |
| `MessageFeed.KeepTruthyExact` | mobile/src/components/MessageList/index.tsx:35 | a single message is kept, a single falsy entry is dropped, and the result holds every message as often as the input, with no falsy entry |
| `MessageFeed.NextWindowEntries` | mobile/src/components/MessageList/index.tsx:31-35 | a falsy head is dropped, leaving the filtered first two previous entries; a present head is followed by them; the window holds exactly the messages among the three slots |
| `MessageFeed.NextWindow` | mobile/src/components/MessageList/index.tsx:31-35 | the new window holds at most 3 messages, even if the previous one was longer; a present head comes first; with all entries present it is the head followed by the first two previous entries (fewer if the previous window is shorter), so its length is the smaller of 3 and one more than the previous length |
| `MessageFeed.Apply` | mobile/src/components/MessageList/index.tsx:13-37 | a push appends to the queue and keeps the window; a tick on an empty queue changes nothing; a tick on a non-empty queue removes exactly the head, keeps the rest in order, and leaves at most 3 messages with the head first; a fetch replaces the window exactly and keeps the queue |
| `MessageFeed.FifoOrder` | mobile/src/components/MessageList/index.tsx:10-37 | for any interleaving of pushes, ticks and fetches, the entries drained followed by those still queued are the initial queue followed by the pushed entries, in order |
| `MessageFeed.Reversed` | mobile/src/components/MessageList/index.tsx:31-35 | the most-recent-first order in which ticks stack drained messages: entry i of the result is entry i counted from the end of the input |
| `MessageFeed.DrainWindow` | mobile/src/components/MessageList/index.tsx:29-38 | after `n` ticks (1 <= n <= queue length) the queue is the rest and the window is the last drained messages, most recent first, then the earlier window, cut to three |
| `MessageFeed.FetchPushTick` | mobile/src/components/MessageList/index.tsx:21-37 | fetching `[m1,m2,m3]`, pushing `m4` and ticking once shows `[m4,m1,m2]` |
| `MessageFeed.Feed.constructor` | mobile/src/components/MessageList/index.tsx:10-18 | the queue starts as the bundled messages and the window as empty |
| `MessageFeed.Feed.Push` | mobile/src/components/MessageList/index.tsx:13-15 | the pushed message is appended to the queue; the window is unchanged |
| `MessageFeed.Feed.Tick` | mobile/src/components/MessageList/index.tsx:29-41 | an empty queue is left alone; otherwise the window becomes `NextWindow(head, window)` and the head is shifted off |
| `MessageFeed.Feed.LoadInitial` | mobile/src/components/MessageList/index.tsx:21-23 | the window becomes the fetched list exactly; the queue is untouched |
| `Http.EndpointHasNoQuery` | mobile/src/hooks/auth/index.tsx:47 | the GitHub authorize endpoint holds no `?`, so the first `?` of the sign-in address starts its query |
| `MobileAuth.SignInUrl` | mobile/src/hooks/auth/index.tsx:47 | the sign-in page starts with the GitHub authorize endpoint, then `?`; the query splits on `&` into exactly two parameters, `client_id=CLIENT_ID` then `scope=SCOPE` |
| `MobileAuth.IsTruthy` | mobile/src/hooks/auth/index.tsx:84 | a missing value and an empty token string are falsy; a stored user is always truthy |
| `MobileAuth.Exchanges` | mobile/src/hooks/auth/index.tsx:50 | the code is exchanged only for a `success` response, and never when the redirect carries `access_denied` |
| `MobileAuth.HasSession` | mobile/src/hooks/auth/index.tsx:84 | a restorable session needs both keys stored, and the stored token is then non-empty |
| `MobileAuth.SignInStep` | mobile/src/hooks/auth/index.tsx:44-67 | `isSigningIn` ends false on every path. Without `success`, or with `access_denied`, or when the exchange throws, user, store and header are unchanged. A successful exchange sets the header to the bearer token. When both writes succeed, the user is stored under the user key, the token under the token key, and `user` is set. A failed write leaves `user` unchanged: a failed user write leaves the store as it was, and a failed token write leaves only the new user stored. Keys other than the two are never touched |
| `MobileAuth.SignOutStep` | mobile/src/hooks/auth/index.tsx:69-77 | never touches the header or the loading flag. When both removals succeed, both keys are gone and `user` is null. When either fails, `user` is kept. A failed first removal leaves the store as it was; a failed second removal leaves the store without the user key only |
| `MobileAuth.RestoreStep` | mobile/src/hooks/auth/index.tsx:79-93 | never writes the store. With both keys truthy, `user` is the stored user and the header is the bearer of the stored token. Otherwise user and header are unchanged. `isSigningIn` ends false unless the read rejected, in which case nothing changes |
| `MobileAuth.SignInThenRelaunch` | mobile/src/hooks/auth/index.tsx:55-90 | after a complete sign-in, a restart restores the same user and the same bearer header, unless the token was empty |
| `MobileAuth.SignOutThenRelaunch` | mobile/src/hooks/auth/index.tsx:71-90 | after a complete sign-out, a restart restores nobody and leaves the header as it was |
| `MobileAuth.TokenWriteFailureMixesSessions` | mobile/src/hooks/auth/index.tsx:57-90 | if the token write fails after the user write, a restart pairs the new user with the token of the earlier session |
| `MobileAuth.AuthProvider.constructor` | mobile/src/hooks/auth/index.tsx:41-42 | the provider starts with no user and `isSigningIn` true |
| `MobileAuth.AuthProvider.SignIn` | mobile/src/hooks/auth/index.tsx:44-67 | the try/catch/finally body leaves exactly the state `SignInStep` gives |
| `MobileAuth.AuthProvider.SignOut` | mobile/src/hooks/auth/index.tsx:69-77 | the try/catch body leaves exactly the state `SignOutStep` gives |
| `MobileAuth.AuthProvider.Restore` | mobile/src/hooks/auth/index.tsx:79-93 | the restore effect leaves exactly the state `RestoreStep` gives |
| `WebAuth.ExtractCode` | web/src/contexts/auth.tsx:71-74 | a code is extracted exactly when the address contains `?code=` |
| `WebAuth.ExtractCodeParts` | web/src/contexts/auth.tsx:74 | `urlWithoutCode` and `githubCode` hold no `?code=`. The address starts with `urlWithoutCode + '?code=' + githubCode`, and then either ends or goes on with another `?code=` |
| `WebAuth.ExtractCodeRoundTrip` | web/src/contexts/auth.tsx:74 | an address and a code without the marker, joined by `?code=`, are extracted back exactly |
| `WebAuth.QueryTailStaysInCode` | web/src/contexts/auth.tsx:74 | query text after the code, such as `&state=...`, stays in the extracted code |
| `WebAuth.SignInStep` | web/src/contexts/auth.tsx:38-50 | a rejected exchange changes nothing. A successful one stores the token under `@dowhile:token` and nothing else, sets the header to the bearer of the token, and sets `user`. The user is not persisted |
| `WebAuth.SignOutStep` | web/src/contexts/auth.tsx:52-55 | `user` becomes null, the token key is removed and other keys are kept, and the header is left unchanged |
| `WebAuth.RestoreStep` | web/src/contexts/auth.tsx:57-67 | with no truthy stored token nothing changes. Otherwise the header becomes the bearer of the stored token, and `user` becomes the profile when the profile request succeeds |
| `WebAuth.RedirectStep` | web/src/contexts/auth.tsx:69-80 | without `?code=` nothing changes. Otherwise the address becomes `urlWithoutCode` (which holds no marker and is followed in the old address by the marker and the code), and `signIn` runs with `githubCode` |
| `WebAuth.RedirectSignsInWithCode` | web/src/contexts/auth.tsx:69-80 | a page opened on `address?code=code` signs in with exactly that code and is left on `address` |
| `WebAuth.SignInThenReload` | web/src/contexts/auth.tsx:45-67 | after a sign-in, a reload sets the same bearer header (unless the token is empty); the user comes only from the profile request |
| `WebAuth.SignOutThenReload` | web/src/contexts/auth.tsx:52-67 | after a sign-out, a reload changes nothing |
| `WebAuth.AuthProvider.constructor` | web/src/contexts/auth.tsx:34 | the context starts with no user |
| `WebAuth.AuthProvider.SignIn` | web/src/contexts/auth.tsx:38-50 | the method leaves exactly the state `SignInStep` gives |
| `WebAuth.AuthProvider.SignOut` | web/src/contexts/auth.tsx:52-55 | the method leaves exactly the state `SignOutStep` gives |
| `WebAuth.AuthProvider.Restore` | web/src/contexts/auth.tsx:57-67 | the effect leaves exactly the state `RestoreStep` gives |
| `WebAuth.AuthProvider.HandleRedirect` | web/src/contexts/auth.tsx:69-80 | the effect leaves exactly the state `RedirectStep` gives |

## Left out

- React rendering, the `ScrollView`/`Message` mapping and the `Button` component: presentation only.
- The socket.io connection, `setInterval` scheduling with its 3000 ms period, and the cleanup returned from inside the interval callback: timing concerns. One tick is one `Feed.Tick` call, and one push is one `Feed.Push` call.
- The contents of `MESSAGES_EXAMPLE` and the fields of `MessageProps`: `mobile/src/utils/messages` and `mobile/src/components/Message` are not part of this model. The initial queue is arbitrary, and a message is an opaque record.
- The `expo-auth-session` browser flow, the network calls and the `api` client itself. Their results are parameters.
- `JSON.stringify`/`JSON.parse`: the device store holds the user value itself.
- MobileAuth.RestoreStep: requires that the two session keys hold what this provider writes there (a user under the user key, text under the token key). A foreign or corrupt value, which would make `JSON.parse` throw, is not modelled.
- Failures of the browser store (`localStorage` throwing) are not modelled. Failures of the device store are boolean parameters.
- `console.log` in the `catch` blocks: logging only.
- Async interleavings are not modelled: a second `signIn` while one is in flight, or the web profile request racing the redirect sign-in. Each operation runs to completion.
- TextSearch.Split: models `split` for a non-empty separator only, the only kind the source uses.
