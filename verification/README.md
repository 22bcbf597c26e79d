# Chat clone: a verified model of its stores and handlers

This project models, in Dafny, the logic of a browser chat application with a
mock phone/OTP login, a chatroom directory and a simulated AI chat. The app has
no server. Its state lives in small stores and page components, and these copy
themselves to the browser's `localStorage`. The model covers:

- **Chatroom directories**, in the app's three variants:
  - the persisted dashboard store (`DashboardStore`). It puts new rooms at the front and deletes by id.
  - the in-memory store (`RoomStore`). It appends a room and returns the new record.
  - the list page (`RoomList`). It trims the typed name, ignores blank names, appends, deletes by id, and mirrors its list to the `"chatrooms"` entry.
- **The auth session store** (`Auth`). It has a logged-out and a logged-in state, holds phone, dial code and country, and mirrors the session to the `"auth"` entry.
- **The chat page** (`Chat`). It covers the send guard, the append-only message log, the "typing" flag, and the simulated reply. The whole log is written under `chat-messages-<chatId>` after every change.
- **Validators and pure transforms**:
  - the new-chatroom form (`RoomForm`);
  - the dashboard's case-insensitive search (`Dashboard`);
  - the country-API transform (`Countries`);
  - the phone login form with its two-step OTP toggle and dial-code sync (`PhoneLogin`);
  - the route guard (`Routes`).

Helper modules:

- `Seqs` holds `Array.prototype.filter`, `Array.prototype.map`, an order-keeping subsequence relation, and removal by key.
- `Text` holds JavaScript's `trim`, `toLowerCase` and `includes`.
- `Storage` holds `localStorage` as a class whose `entries` field is a map from string keys to values.
- `Wrappers` holds `Option`.

Modelling choices:

- Each component sees storage at its own value type. No JSON is modelled.
- Fresh ids (`uuid`, `crypto.randomUUID`) and timestamps (`Date.now`, `toISOString`) are method parameters. Where uniqueness matters, a precondition says the id is fresh.
- Every `setTimeout` or debounced callback is a separate event method that the caller invokes: `ReplyArrives`, `TimerFires`, `SearchFires`.
- A React effect that runs after a state change is folded into the method that changes the state. For example, `SendMessage` writes the log to storage.
- Mounting a page is its constructor. It runs the load effect and then the save effect.
- The chat page carries a mounted flag. Leaving the page (`Unmount`) clears it. A reply timer that fires afterwards is dropped, as React drops state updates of an unmounted component, so the reply is lost.

Where the code's behaviour differs from what one might expect of the app:

- The auth store starts logged out and never reads a stored `"auth"` entry, so a session does not survive a reload.
- The persisted dashboard store accepts any title, even an empty one. Only the form in front of it checks the length, and that check is at least two characters, untrimmed.
- The phone schema needs at least eight characters, so a seven-character number such as `5551234` is rejected.
- Nothing in the login form calls the auth store (see Findings).
- No pagination or windowing code exists in these files, so none is modelled.

## Model

| member | source | states |
|---|---|---|
| `DashboardStore.ChatroomStore.constructor` | src/features/dashboard/chatroomStore.ts:19 | the store starts with an empty list, whose ids are trivially distinct |
| `DashboardStore.ChatroomStore.CreateChatroom` | src/features/dashboard/chatroomStore.ts:20-27 | exactly one new room sits at index 0 with the title verbatim (even empty), the old list follows unchanged and in order, and a fresh id keeps ids distinct |
| `DashboardStore.ChatroomStore.DeleteChatroom` | src/features/dashboard/chatroomStore.ts:28-30 | the new list is the old one without the rooms carrying that id, and ids stay distinct |
| `DashboardStore.WithoutId` | src/features/dashboard/chatroomStore.ts:29 | no kept room has the id; every room with another id is kept; the result is an order-preserving subsequence whose length is the number of rooms with another id, so duplicates keep their multiplicity |
| `DashboardStore.DeleteAbsentIsNoOp` | src/features/dashboard/chatroomStore.ts:29 | deleting an id no room carries leaves the list unchanged |
| `DashboardStore.DeletePresentRemovesOne` | src/features/dashboard/chatroomStore.ts:29 | with distinct ids, deleting a present id removes exactly that room and the length drops by one |
| `DashboardStore.DeleteIdempotent` | src/features/dashboard/chatroomStore.ts:29 | deleting the same id twice equals deleting it once |
| `RoomStore.ChatroomStore.constructor` | src/store/chatrooms.ts:15 | the store starts with an empty list |
| `RoomStore.ChatroomStore.AddChatroom` | src/store/chatrooms.ts:16-22 | one room with the title verbatim is appended after the unchanged prefix; the returned record is the new last element; a fresh id keeps ids distinct |
| `Auth.AuthStore.constructor` | src/store/auth.ts:12-16 | the store starts logged out with empty phone, dial code and country, and leaves storage untouched |
| `Auth.AuthStore.Login` | src/store/auth.ts:17-21 | the store is logged in with the given fields; `"auth"` holds exactly those three fields; no other key changes; the entry mirrors the session |
| `Auth.AuthStore.Logout` | src/store/auth.ts:22-25 | from any state, the store returns to the initial logged-out values, `"auth"` is removed with no other key changed, and the entry again mirrors the session |
| `Chat.StorageKeyInjective` | src/features/chatroom/ChatroomPage.tsx:19 | the key is `chat-messages-` followed by the chat id, so two rooms never share a log |
| `Chat.ChatroomPage.constructor` | src/features/chatroom/ChatroomPage.tsx:20-36 | mounting loads the stored log only when an entry exists, else starts empty; the log is written back; the page is mounted, the compose state is empty and nothing is pending |
| `Chat.ChatroomPage.AppendMessage` | src/features/chatroom/ChatroomPage.tsx:34-36 | one message goes at the end of the log, the whole log is written to the room's key, and only its sender's count grows |
| `Chat.CountAppend` | src/features/chatroom/ChatroomPage.tsx:53 | appending a message adds one to its sender's count only (`Chat.CountFrom` is `Seqs.Count` with the sender predicate) |
| `Chat.ChatroomPage.EditMessage` | src/features/chatroom/ChatroomPage.tsx:179 | on the mounted page, only the compose text changes |
| `Chat.ChatroomPage.SelectImage` | src/features/chatroom/ChatroomPage.tsx:164-172 | on the mounted page, only the preview changes |
| `Chat.ChatroomPage.SendMessage` | src/features/chatroom/ChatroomPage.tsx:42-57 | the guard is `Chat.CanSend` (trimmed text non-empty, or a non-empty preview per `Chat.HasPreview`): blank text without a preview changes nothing (log, text, preview, typing flag, storage); otherwise exactly one user message with the untrimmed text, and the image iff a non-empty preview exists, is appended to the unchanged log; then text is `""`, preview is null, typing is on, one reply is pending, and storage holds the new log |
| `Chat.ChatroomPage.ReplyArrives` | src/features/chatroom/ChatroomPage.tsx:58-67 | on the mounted page, exactly one AI message with the canned text is appended, typing turns off and storage holds the new log; on an unmounted page nothing changes and the reply is lost. Since mount, user messages equal AI replies plus pending plus lost replies, and none is lost while the page stays mounted, so there each send leads to exactly two messages |
| `Chat.ChatroomPage.Unmount` | src/features/chatroom/ChatroomPage.tsx:75 | leaving the page unmounts it, keeping its invariant |
| `Chat.Remount` | src/features/chatroom/ChatroomPage.tsx:27-36 | reopening a room unmounts the old page; the new page is a fresh, mounted one on the same storage and shows exactly the log the old page saved, with an empty compose box, no preview, typing off and no reply pending |
| `Chat.LeaveBeforeReply` | src/features/chatroom/ChatroomPage.tsx:58-67 | a reply that fires after the user left the room is lost: the reopened page shows no typing indicator and expects no reply, and the stored log and the reopened page are unchanged and keep more user messages than replies since the old page mounted |
| `RoomList.ChatroomListPage.constructor` | src/features/dashboard/ChatroomListPage.tsx:14-28 | mounting loads `"chatrooms"` only when the entry exists, else starts empty, and writes the list back |
| `RoomList.ChatroomListPage.EditName` | src/features/dashboard/ChatroomListPage.tsx:60 | only the input text changes |
| `RoomList.ChatroomListPage.CreateChatroom` | src/features/dashboard/ChatroomListPage.tsx:30-43 | a blank name changes nothing; otherwise one room named by the trimmed input is appended after the unchanged rooms, the input becomes `""`, storage holds the list, and a fresh id keeps ids distinct |
| `RoomList.ChatroomListPage.DeleteChatroom` | src/features/dashboard/ChatroomListPage.tsx:45-50 | the list becomes `Seqs.RemoveKey` of the old list: the rooms with that id are removed, the others keep their order and multiplicity, and storage holds the new list |
| `RoomList.Remount` | src/features/dashboard/ChatroomListPage.tsx:18-28 | coming back to the page gives a fresh page on the same storage showing exactly the list the previous page saved, with an empty name input |
| `Seqs.RemoveKey` | src/features/dashboard/ChatroomListPage.tsx:46 | no kept element has the key; every element with another key is kept; the result is an order-preserving subsequence whose length is the number of elements with another key |
| `Seqs.RemoveAbsentKey` | src/features/dashboard/ChatroomListPage.tsx:46 | removing a key no element carries leaves the list unchanged |
| `RoomForm.ChatroomForm.constructor` | src/features/dashboard/ChatroomForm.tsx:15-25 | the form starts empty, bound to the dashboard store |
| `RoomForm.ChatroomForm.EditTitle` | src/features/dashboard/ChatroomForm.tsx:35 | only the title field changes |
| `RoomForm.ChatroomForm.Submit` | src/features/dashboard/ChatroomForm.tsx:9-31 | the schema is `RoomForm.TitleAccepted` (at least two characters): a title under two characters leaves the store and the field alone; an accepted title, untrimmed (two spaces pass), becomes exactly one room at the front of the store and the form is reset |
| `Dashboard.Search` | src/features/dashboard/DashboardPage.tsx:16-18 | every result's lower-cased title includes the lower-cased term; every such room is a result; results are a subsequence in store order, as many as there are matching rooms |
| `Dashboard.SearchEmptyTermFindsAll` | src/features/dashboard/DashboardPage.tsx:17 | the empty term returns every room |
| `Dashboard.SearchIgnoresCase` | src/features/dashboard/DashboardPage.tsx:17 | terms that differ only in letter case give equal results |
| `Dashboard.SearchLowerCasedTerm` | src/features/dashboard/DashboardPage.tsx:17 | a term and its lower-cased form give equal results |
| `Dashboard.DashboardPage.constructor` | src/features/dashboard/DashboardPage.tsx:9-11 | before any search runs, the results are the whole store list |
| `Dashboard.DashboardPage.EditSearch` | src/features/dashboard/DashboardPage.tsx:24-26 | typing changes the term, not the results |
| `Dashboard.DashboardPage.SearchFires` | src/features/dashboard/DashboardPage.tsx:13-22 | the results become the store's rooms matching the term, in store order |
| `Text.Trim` | src/features/dashboard/ChatroomListPage.tsx:31 | the result is a slice `s[i..j]` of the input where everything before `i` and from `j` on is whitespace, it neither starts nor ends with whitespace, and it is empty exactly when the input is whitespace-only |
| `Text.ToLower` | src/features/dashboard/DashboardPage.tsx:17 | the result has the input's length and maps each character to its lower-case form |
| `Countries.ToCountry` | src/features/auth/countryService.ts:27-37 | name is `name.common`, code is `cca2`, the flag URL is the prefix plus the lower-cased code plus `.svg`, and the dial code is the root (or `""`) followed by the first suffix (or `""`), so it is empty exactly when both parts are |
| `Countries.ToCountries` | src/features/auth/countryService.ts:26-38 | every output has a non-empty dial code and maps some input; every input with a non-empty dial code is kept; input order is kept, and the output count is the number of inputs with a dial code |
| `PhoneLogin.FindByCode` | src/features/auth/PhoneLoginForm.tsx:48 | the result is the first loaded country with that code, or nothing exactly when none has it |
| `PhoneLogin.PhoneLoginForm.constructor` | src/features/auth/PhoneLoginForm.tsx:20-38 | the form starts with no countries, the OTP field hidden, and the default values |
| `PhoneLogin.PhoneLoginForm.CountriesLoaded` | src/features/auth/PhoneLoginForm.tsx:43-52 | the loaded countries are stored and the dial-code effect (`PhoneLogin.SyncDialCode`, looking the selected code up with `PhoneLogin.FindByCode`) runs on them |
| `PhoneLogin.PhoneLoginForm.SelectCountry` | src/features/auth/PhoneLoginForm.tsx:47-52 | through `PhoneLogin.SyncDialCode`: when the chosen code matches a loaded country, the dial code becomes that country's; otherwise it is unchanged |
| `PhoneLogin.PhoneLoginForm.EnterPhone` | src/features/auth/PhoneLoginForm.tsx:104 | only the phone field changes |
| `PhoneLogin.PhoneLoginForm.EnterOtp` | src/features/auth/PhoneLoginForm.tsx:116 | only the OTP field changes |
| `PhoneLogin.PhoneLoginForm.Submit` | src/features/auth/PhoneLoginForm.tsx:10-69 | the schema is `PhoneLogin.SchemaAccepts`: nothing is scheduled iff the country is empty or the phone has fewer than 8 characters; otherwise the "OTP sent" step is scheduled iff the OTP was not yet sent; the OTP value is never compared |
| `PhoneLogin.PhoneLoginForm.TimerFires` | src/features/auth/PhoneLoginForm.tsx:55-68 | "OTP sent" sets the flag; "verified" resets the form to its defaults, re-runs `PhoneLogin.SyncDialCode`, and clears the flag; the auth store is not touched |
| `PhoneLogin.CompleteOtpFlow` | src/features/auth/PhoneLoginForm.tsx:54-69 | after both steps complete, the user is still logged out and `/dashboard` redirects to `/auth` |
| `PhoneLogin.PhoneLoginForm.TimerFiresWithLogin` | src/features/auth/PhoneLoginForm.tsx:61-68 | the corrected "verified" step logs in the submitted phone, dial code and country, then resets the form |
| `PhoneLogin.CompleteOtpFlowWithLogin` | src/features/auth/PhoneLoginForm.tsx:54-69 | with the corrected step, the two-step flow ends logged in with the submitted phone, and `/dashboard` shows the chatroom list |
| `Routes.Route` | src/routes/index.tsx:12-24 | `/` redirects to `/dashboard` when logged in and to `/auth` otherwise; `/auth` always shows the login page; `/dashboard` and `/chat/:chatId` show their pages iff logged in and otherwise redirect to `/auth` |
| `Routes.LoggedOutNeverProtected` | src/routes/index.tsx:17-24 | a logged-out user never reaches a protected page, and every redirect goes to `/auth` |
| `Routes.RedirectSettles` | src/routes/index.tsx:12-24 | following a redirect once always lands on a page, so there are no redirect chains or loops |

## Left out

- Rendering, styling, scroll-into-view, clipboard copy and the file reader are left out. They are UI and browser APIs. The image preview is a string passed to `SelectImage`.
- Toasts and `CustomEvent` broadcasts are left out. They are fire-and-forget and change no state.
- `fetch` and the country endpoint are left out because they are network I/O. Only the transform over a given response is modelled.
- Timer delays, debounce timing and React effect scheduling are left out. Each delayed callback is an event method, and each effect is folded into the state change that triggers it.
- `uuid`, `crypto.randomUUID` and the clock are left out as foreign nondeterminism; they are parameters. Because the clock is a parameter, the model does not show that a reply's timestamp is at least its user message's timestamp.
- `JSON.stringify`/`JSON.parse` are left out. That includes the uncaught exception on malformed stored JSON at src/features/chatroom/ChatroomPage.tsx:30 and src/features/dashboard/ChatroomListPage.tsx:21. Storage holds typed values.
- The zustand `persist` middleware of src/features/dashboard/chatroomStore.ts:17-35 is left out. Its rehydration on start-up and its envelope format under the `"chatrooms"` key are library code. That key is the same one the list page writes in another format.
- `Text.ToLower`: maps only the ASCII letters. `toLowerCase` also lower-cases other Unicode letters, and Unicode case mapping is not modelled.
- `RoomForm.TitleAccepted` and `PhoneLogin.SchemaAccepts`: count Unicode characters. The schema library counts UTF-16 code units, so the two differ on characters outside the Basic Multilingual Plane.
- `Dashboard.DashboardPage.SearchFires`: filters the store's current list. The source's debounced callback filters the list captured when the callback was created. A callback left pending across a store change therefore uses the older list, and the model does not capture that.
- `Chat.ChatroomPage.constructor`: models one mount per room. If the route's `chatId` changes without the page unmounting, the save effect first writes the old room's messages under the new key. That case is not modelled.
- `PhoneLogin.PhoneLoginForm.TimerFires`: a step timer that fires after the form was unmounted is dropped in the source. The model has no unmounted form, because the dropped update concerns only the discarded form and nothing persisted.
- Route matching is left out. Paths are a datatype, and every path outside the table is `Unmatched`, which renders nothing.
- src/features/dashboard/ChatroomCard.tsx, src/features/auth/AuthPage.tsx and src/App.tsx are left out. They are layout wrappers around the modelled operations.

## Findings

| source | as written | input that shows it | evidently intended | confidence | as-written member | corrected member |
|---|---|---|---|---|---|---|
| src/features/auth/PhoneLoginForm.tsx:61-68 | the "verified" step shows "Logged in successfully!", resets the form and clears the OTP flag, but never calls the auth store's `login`, so `isLoggedIn` stays false and every protected route redirects to `/auth` | country `US`, phone `55512345`: submit, let the timer fire, submit again, let the timer fire; `/dashboard` still redirects to `/auth` | the submitted phone, dial code and country are passed to `login` before the reset, so the user reaches the chatroom list | medium, not executed | `PhoneLogin.CompleteOtpFlow` | `PhoneLogin.CompleteOtpFlowWithLogin` |
