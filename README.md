# KnowordKiwi frontend core in Dafny

This project models, in Dafny, the stateful and arithmetic core of the
KnowordKiwi web frontend:

- **The session store** (`store/authStore.ts`).
  - It holds the `isAuthenticated` flag and the socket.io client socket it owns.
  - Its cookie reader finds the access token.
  - Five operations change the two fields: `setIsAuthenticated`, `clearAuth`, `connectSocket`, `disconnectSocket` and `updateSocketToken`.
- **Its two readers.**
  - `utils/socketUtils.ts` reads the store and delegates to it.
  - The `SocketStatus` badge (`components/SocketStatus.tsx`) maps store changes and socket events to one of four statuses.
- **The community ranking cache** (`store/communityRankingStore.ts`). It replaces its data only when the community id changes.
- **The two image upload forms** (both `CozyUploadPost.tsx` files). They share a tag list that behaves as an ordered set of trimmed, non-empty tags. Each form also has its file acceptance and publish guard. The community form also has its publish flow, its reset and its error messages.
- **The experience bar** of both `UserGamificationBar.tsx` files. They contain the same `progressPercentage` expression.
- **The blog editor's quiz section and AI quiz generator** (`QuizSection.tsx`, `AIQuizGenerator.tsx`).
- **The diagram creation page** (`app/posts/diagram/create/page.tsx`).

Every stateful component is a class whose fields are the component's
state. Each handler is a method that states the whole new state.
Components with many fields get a `State()` snapshot, so an `ensures`
can read `State() == old(State()).(field := value)`. Pure expressions
of the source are functions, and what the source promises of them is
proved in lemmas.

Choices made in the model:

- **Sockets.** Socket.io sockets are abstract `Socket` handles. A ghost set `created` records every handle the store made. The store's invariant is that every created handle except the held one has been disconnected. So at most one handle is live, and a live handle is the held one.
- **The deferred connect.** The `setTimeout(() => get().connectSocket(), 0)` of a login is a pending-connect counter. The environment fires it with `FirePendingConnect`, as the code has it, without re-checking `isAuthenticated`.
- **Operations split at an `await`.** Some operations have observable state in the middle of an `await`: the AI quiz generation and the diagram submit. Each is split into a start method and a settle method. The settle method is given the outcome of the call.

Modules:

| module | file | models |
|---|---|---|
| `Wrappers` | wrappers.dfy | `Option` |
| `JsText` | js_text.dfy | `String.prototype.trim` (ECMAScript white space and line terminators), `split` on one character, `startsWith`, string truthiness and the or-operator |
| `Auth` | auth_store.dfy | store/authStore.ts |
| `SocketUtils` | socket_utils.dfy | utils/socketUtils.ts |
| `SocketStatus` | socket_status.dfy | components/SocketStatus.tsx |
| `CommunityRanking` | community_ranking.dfy | store/communityRankingStore.ts |
| `TagList` | tag_list.dfy | the tag list both upload forms share |
| `FormFiles` | form_files.dfy | the file acceptance both upload forms share |
| `ImagePost` | image_post.dfy | app/communities/components/ui/image-post/CozyUploadPost.tsx |
| `UploadPost` | upload_post.dfy | components/CozyUploadPost.tsx |
| `Gamification` | gamification.dfy | both UserGamificationBar.tsx files |
| `QuizTypes` | quiz_types.dfy | what the two quiz components share |
| `QuizSection` | quiz_section.dfy | app/posts/blog/components/quiz/QuizSection.tsx |
| `AIQuizGenerator` | ai_quiz_generator.dfy | app/posts/blog/components/quiz/AIQuizGenerator.tsx |
| `DiagramCreate` | diagram_create.dfy | app/posts/diagram/create/page.tsx |

Three facts about store/authStore.ts shape the model:

- **The deferred connect is unguarded.** The `setTimeout` that a login schedules (store/authStore.ts:42) runs `connectSocket` without looking at `isAuthenticated`. A login followed at once by a logout therefore still creates a socket once the timer fires. `Auth.LateConnectAfterLogout` shows the resulting state: logged out, yet holding a live socket.
- **A socket does not imply a login.** For the same reason, `AuthStore.Valid()` does not include "a held socket implies `isAuthenticated`".
- **Server-side disconnects keep the socket.** The `disconnect` listener (store/authStore.ts:82-84) only logs, so a drop by the server leaves the socket in the store. `Socket.Drop` changes only the handle.

## Model

| member | source | states |
|---|---|---|
| `JsText.Trim` | store/authStore.ts:20 | `trim()`; its contract is given by `TrimIsTrimmed`, `TrimPosition`, `TrimOfTrimmed`, `TrimIdempotent` and `TrimEmpty` below |
| `JsText.Truthy` | app/communities/components/ui/image-post/CozyUploadPost.tsx:108 | JavaScript truthiness of an optional string: present and not empty; `OrElse`, `BearerAuth` and `IdOrNull` state their results through it |
| `JsText.StartsWith` | app/communities/components/ui/image-post/CozyUploadPost.tsx:54 | `startsWith`: the prefix is the first part of the string; `DroppedFile` and `Render` are stated with it |
| `JsText.Join` | store/authStore.ts:18 | the partner of `split`: `JoinSplit` proves that joining the pieces gives back the input |
| `JsText.TrimIsTrimmed` | store/authStore.ts:20 | `trim()` leaves no white space at either end |
| `JsText.TrimPosition` | store/authStore.ts:20 | `trim()` keeps one contiguous slice of the input and removes only white space around it |
| `JsText.TrimOfTrimmed` | store/authStore.ts:20 | text without white space at its ends is returned unchanged by `trim()` |
| `JsText.TrimIdempotent` | app/communities/components/ui/image-post/CozyUploadPost.tsx:76-77 | trimming twice is trimming once, so a stored tag is its own trim |
| `JsText.TrimEmpty` | app/communities/components/ui/image-post/CozyUploadPost.tsx:74 | `s.trim()` is empty (falsy) exactly when every character of `s` is white space |
| `JsText.Split` | store/authStore.ts:18 | `split` on a character yields at least one piece |
| `JsText.JoinSplit` | store/authStore.ts:18 | joining the pieces of `split` with the separator gives back the input |
| `JsText.SplitPiecesFree` | store/authStore.ts:18 | no piece of `split` contains the separator |
| `JsText.SplitNoSeparator` | store/authStore.ts:18 | a string without the separator splits into itself alone |
| `JsText.SplitAtFirst` | store/authStore.ts:20 | splitting `a + sep + b`, with no separator in `a`, gives `a` followed by the pieces of `b` |
| `JsText.SplitPair` | store/authStore.ts:20 | `[name, value] = (name=value…).split('=')` binds exactly the text before the first `=` and between the first and second `=` |
| `JsText.OrElse` | app/communities/components/ui/image-post/CozyUploadPost.tsx:147-150 | JavaScript's or-operator on strings: the result is truthy iff one operand is, and it is `a` when `a` is truthy and `b` otherwise |
| `Auth.BearerAuth` | store/authStore.ts:57-72 | a socket is created iff the token is neither null nor empty, and its auth is `"Bearer "` followed by exactly the token |
| `Auth.EntryToken` | store/authStore.ts:20-21 | what one cookie entry yields: its partners `EntryTokenValue` and `SplitPair` state that it is the text between the first two `=` of an `access-token` entry, and nothing for an empty value |
| `Auth.FirstToken` | store/authStore.ts:19-24 | the first entry that yields a token decides: `FirstTokenIsFirstMatch` and `FirstTokenNone` state this in both directions |
| `Auth.AccessToken` | store/authStore.ts:16-27 | the value of `getAccessToken()`; `GetAccessToken` is proved equal to it and `AccessTokenOfSingleCookie` evaluates it on one cookie |
| `Auth.FirstTokenStep` | store/authStore.ts:19-24 | the loop's step: the current entry decides if it yields a token, otherwise the scan goes on with the rest |
| `Auth.GetAccessToken` | store/authStore.ts:16-27 | the `for` loop with its early return computes exactly `AccessToken`: None without a document, else the decoded first token |
| `Auth.FirstTokenIsFirstMatch` | store/authStore.ts:19-24 | the token found is `v` iff some entry yields `v` and no earlier entry yields anything; entries with an empty value are skipped |
| `Auth.FirstTokenNone` | store/authStore.ts:16-27 | no token is found iff no entry has the name `access-token` with a non-empty value |
| `Auth.EntryTokenValue` | store/authStore.ts:20-21 | an entry `access-token=v` yields `v` even when followed by `=` and more text: only the text between the first two `=` counts |
| `Auth.AccessTokenOfSingleCookie` | store/authStore.ts:16-27 | the cookie `access-token=v` gives `decodeURIComponent(v)` |
| `Auth.Socket.constructor` | store/authStore.ts:69-75 | `io(...)` gives a fresh handle with the bearer auth, not yet connected, without an id |
| `Auth.Socket.Disconnect` | store/authStore.ts:95 | `socket.disconnect()` closes the handle for good: disconnected, not connected, no id |
| `Auth.Socket.Acknowledge` | store/authStore.ts:78-80 | the server's `connect` event: the handle becomes connected with the server-assigned id |
| `Auth.Socket.Drop` | store/authStore.ts:82-84 | the server's `disconnect` event: no longer connected, no id, and the client's disconnect mark is unchanged |
| `Auth.AuthStore.constructor` | store/authStore.ts:33-34 | the initial state: not authenticated, no socket, nothing created or pending |
| `Auth.AuthStore.AtMostOneLive` | store/authStore.ts:63-66 | at most one created socket is live, and a live one is the socket the store holds |
| `Auth.AuthStore.ConnectSocket` | store/authStore.ts:56-91 | no usable token: nothing changes; otherwise the old socket is disconnected and a fresh one with `"Bearer " + token` is held; the invariant is kept |
| `Auth.AuthStore.DisconnectSocket` | store/authStore.ts:92-98 | the held socket is disconnected and cleared; with none the store is unchanged (idempotent) |
| `Auth.AuthStore.SetIsAuthenticated` | store/authStore.ts:35-50 | login sets the flag and schedules one deferred connect without creating a socket; logout disconnects and clears the socket before the flag drops; the same value only sets the flag |
| `Auth.AuthStore.ClearAuth` | store/authStore.ts:51-55 | from any state: not authenticated, socket null, the old socket disconnected |
| `Auth.AuthStore.UpdateSocketToken` | store/authStore.ts:99-108 | without a socket nothing changes; otherwise the socket is disconnected, then replaced by a fresh unconnected socket with no id when a token exists, or left in the store disconnected when none does |
| `Auth.AuthStore.FirePendingConnect` | store/authStore.ts:42 | the deferred connect has exactly the effect of `connectSocket` (`Connected`), whatever `isAuthenticated` now is, and one fewer connect is pending |
| `Auth.LateConnectAfterLogout` | store/authStore.ts:39-46 | login, then logout, then the login's timer: the store is logged out yet holds a live socket |
| `SocketUtils.GetSocket` | utils/socketUtils.ts:7-9 | the store's socket, read at the call; `DisconnectSocket` proves it null afterwards and `LoginAndHandshake` proves it the one live socket |
| `SocketUtils.IsSocketConnected` | utils/socketUtils.ts:15-18 | a socket is held and connected; `ConnectedIsTheLiveSocket` ties it to the store's one live socket |
| `SocketUtils.ConnectedIsTheLiveSocket` | utils/socketUtils.ts:15-18 | `isSocketConnected()` (held socket non-null and connected) implies that socket is the one live handle; otherwise no live handle is connected |
| `SocketUtils.ConnectSocket` | utils/socketUtils.ts:24-26 | exactly the effect of the store's `connectSocket` |
| `SocketUtils.DisconnectSocket` | utils/socketUtils.ts:31-33 | the store's `disconnectSocket`; afterwards `getSocket()` is null and `isSocketConnected()` false |
| `SocketUtils.UpdateSocketToken` | utils/socketUtils.ts:39-41 | exactly the effect of the store's `updateSocketToken` (`TokenUpdated`); afterwards nothing is reported connected |
| `SocketUtils.ClearAuthThenCheck` | utils/socketUtils.ts:15-18 | after `clearAuth`, `isSocketConnected()` is false |
| `SocketUtils.LoginAndHandshake` | utils/socketUtils.ts:7-18 | login, the deferred connect and the server's acknowledgement: `getSocket()` is connected with the server's id and is the only live handle |
| `SocketStatus.Name` | components/SocketStatus.tsx:79 | the label of each of the four statuses; `Render` states the shown text with it |
| `SocketStatus.Color` | components/SocketStatus.tsx:67-72 | `statusColors` for each of the four statuses; `Render` states the badge colour with it |
| `SocketStatus.HeldStatus` | components/SocketStatus.tsx:27 | a held socket shows `connected` iff it is connected, else `connecting` |
| `SocketStatus.IdOrNull` | components/SocketStatus.tsx:28 | `socket.id` or else null: an id is kept iff it is present and non-empty |
| `SocketStatus.ShortId` | components/SocketStatus.tsx:79 | `substring(0, 5)`: the first five characters, or the whole of a shorter id |
| `SocketStatus.SocketStatusView.constructor` | components/SocketStatus.tsx:13-14 | the initial status is `disconnected` with a null id |
| `SocketStatus.SocketStatusView.RunEffect` | components/SocketStatus.tsx:16-61 | unauthenticated: `disconnected`, null id, no subscription; authenticated: subscribed, and the held socket's connected/connecting status and id, or `connecting` without a socket |
| `SocketStatus.SocketStatusView.OnStoreChange` | components/SocketStatus.tsx:24-47 | a store update maps a held socket to connected/connecting with its id, and no socket to `disconnected` with a null id |
| `SocketStatus.SocketStatusView.OnConnect` | components/SocketStatus.tsx:31-34 | `connect` sets `connected` and the socket's id |
| `SocketStatus.SocketStatusView.OnDisconnect` | components/SocketStatus.tsx:36-38 | `disconnect` sets `disconnected` and keeps the id |
| `SocketStatus.SocketStatusView.OnConnectError` | components/SocketStatus.tsx:40-42 | `connect_error` sets `error` and keeps the id |
| `SocketStatus.SocketStatusView.Render` | components/SocketStatus.tsx:63-80 | nothing is rendered iff `showConnectionStatus` is false; otherwise the colour of the status, and a label naming the status followed by the id's first five characters when the id is non-empty |
| `CommunityRanking.CommunityRankingStore.constructor` | store/communityRankingStore.ts:22-23 | both fields start null |
| `CommunityRanking.CommunityRankingStore.SetCommunityRanking` | store/communityRankingStore.ts:25-26 | both fields are set to the given values, unconditionally |
| `CommunityRanking.CommunityRankingStore.ResetCommunityRanking` | store/communityRankingStore.ts:28-29 | both fields become null |
| `CommunityRanking.CommunityRankingStore.UpdateCommunityRankingIfNeeded` | store/communityRankingStore.ts:31-36 | the same id keeps the held data even if the new data differs; a different id stores the new data; the ranking is null iff the id is |
| `CommunityRanking.UpdateTwice` | store/communityRankingStore.ts:31-36 | a second update for the same community leaves the state the first one left |
| `CommunityRanking.SetTwice` | store/communityRankingStore.ts:25-26 | setting the same values twice gives the state of setting them once |
| `Gamification.ProgressPercentage` | app/communities/components/gamification/UserGamificationBar.tsx:39-42 | the bar's percentage; the lemmas below state that it is 0 without a positive next rank, at most 100, 100 at the threshold, the floor of the ratio below it, monotone in experience, and negative for negative experience |
| `Gamification.ZeroWithoutNextRank` | app/communities/components/gamification/UserGamificationBar.tsx:39-42 | the percentage is 0 whenever `nextRankXp <= 0` |
| `Gamification.AtMostHundred` | app/communities/components/gamification/UserGamificationBar.tsx:41 | the percentage never exceeds 100 |
| `Gamification.FullAtThreshold` | app/communities/components/gamification/UserGamificationBar.tsx:41 | the percentage is 100 when `currentXp >= nextRankXp > 0` |
| `Gamification.FloorBelowThreshold` | components/communities/gamification/UserGamificationBar.tsx:41 | below the threshold the percentage is `floor(100 * currentXp / nextRankXp)`: the largest `p` with `p * nextRankXp <= 100 * currentXp` |
| `Gamification.MonotoneInXp` | components/communities/gamification/UserGamificationBar.tsx:39-42 | more experience never gives a smaller percentage |
| `Gamification.NegativeXpNegative` | components/communities/gamification/UserGamificationBar.tsx:41 | there is no lower clamp: negative experience gives a negative percentage |
| `Gamification.DivMonotone` | components/communities/gamification/UserGamificationBar.tsx:41 | `Math.floor` of a quotient by a positive divisor preserves order |
| `TagList.IsTagSet` | app/communities/components/ui/image-post/CozyUploadPost.tsx:73-85 | the invariant both forms keep: every tag non-empty and trimmed, none twice; `WithTagKeepsTagSet`, `OnKeyDownKeepsTagSet` and `RemoveTagKeepsTagSet` preserve it |
| `TagList.WithTag` | app/communities/components/ui/image-post/CozyUploadPost.tsx:76-78 | `[...tags, t]` guarded by `includes`; `WithTagContents` states its contents and order |
| `TagList.OnKeyDown` | app/communities/components/ui/image-post/CozyUploadPost.tsx:73-81 | the Enter-key handler on the tag field; `OnKeyDownEffect` and `OnKeyDownKeepsTagSet` state what it does |
| `TagList.RemoveTag` | app/communities/components/ui/image-post/CozyUploadPost.tsx:84 | `filter`: a tag is kept iff it is in the list and differs from the removed one |
| `TagList.WithTagContents` | app/communities/components/ui/image-post/CozyUploadPost.tsx:76-78 | offering a tag keeps every old tag in place and adds it at the end iff it was absent |
| `TagList.WithTagKeepsTagSet` | app/communities/components/ui/image-post/CozyUploadPost.tsx:76-78 | offering a non-empty trimmed tag keeps the list free of duplicates, empty and untrimmed tags |
| `TagList.OnKeyDownKeepsTagSet` | components/CozyUploadPost.tsx:51-59 | every key press in the tag field keeps the list an ordered set of trimmed, non-empty tags |
| `TagList.OnKeyDownEffect` | app/communities/components/ui/image-post/CozyUploadPost.tsx:73-81 | only Enter on non-blank text acts; then the field is cleared and the trimmed text appended iff new; otherwise nothing changes |
| `TagList.RemoveTagAppend` | components/CozyUploadPost.tsx:62 | filtering distributes over concatenation, so the kept tags keep their order |
| `TagList.RemoveTagAbsent` | app/communities/components/ui/image-post/CozyUploadPost.tsx:84 | removing an absent tag leaves the list unchanged |
| `TagList.RemoveSingle` | app/communities/components/ui/image-post/CozyUploadPost.tsx:84 | removing a tag that occurs once deletes just that occurrence |
| `TagList.RemoveTagAt` | components/CozyUploadPost.tsx:61-63 | in a list without duplicates, removing the tag at position `k` deletes exactly position `k` |
| `TagList.RemoveTagKeepsTagSet` | app/communities/components/ui/image-post/CozyUploadPost.tsx:83-85 | removing a tag keeps the list an ordered set |
| `FormFiles.ChosenFile` | app/communities/components/ui/image-post/CozyUploadPost.tsx:39-40 | the file input takes the first file whatever its type, and nothing when none is chosen |
| `FormFiles.DroppedFile` | app/communities/components/ui/image-post/CozyUploadPost.tsx:53-54 | a drop takes the first file iff its MIME type starts with `image/` |
| `FormFiles.DropStricterThanChoice` | components/CozyUploadPost.tsx:18-40 | what a drop accepts the file input accepts too; they differ exactly on a first file that is not an image |
| `ImagePost.ErrorMessage` | app/communities/components/ui/image-post/CozyUploadPost.tsx:147-150 | the server's message if non-empty, else the exception's, else the fixed fallback; never empty |
| `ImagePost.EmptyResponseFailure` | app/communities/components/ui/image-post/CozyUploadPost.tsx:127-129 | a response without data is reported as `Failed to create image post` |
| `ImagePost.ImagePostForm.constructor` | app/communities/components/ui/image-post/CozyUploadPost.tsx:19-30 | the form starts empty with nothing shown |
| `ImagePost.ImagePostForm.Accept` | app/communities/components/ui/image-post/CozyUploadPost.tsx:55-60 | an accepted file is kept in the file ref and its data URL becomes the preview; nothing else changes |
| `ImagePost.ImagePostForm.HandleImageChange` | app/communities/components/ui/image-post/CozyUploadPost.tsx:38-48 | the first chosen file is accepted whatever its type; without one nothing changes |
| `ImagePost.ImagePostForm.HandleDrop` | app/communities/components/ui/image-post/CozyUploadPost.tsx:50-62 | the drag ends, and only a first file of an `image/` type is accepted |
| `ImagePost.ImagePostForm.HandleDragOver` | app/communities/components/ui/image-post/CozyUploadPost.tsx:64-67 | only `isDragging` becomes true |
| `ImagePost.ImagePostForm.HandleDragLeave` | app/communities/components/ui/image-post/CozyUploadPost.tsx:69-71 | only `isDragging` becomes false |
| `ImagePost.ImagePostForm.SetTitle` | app/communities/components/ui/image-post/CozyUploadPost.tsx:247 | only the title changes |
| `ImagePost.ImagePostForm.SetInputTag` | app/communities/components/ui/image-post/CozyUploadPost.tsx:299 | only the tag field changes |
| `ImagePost.ImagePostForm.HandleAddTag` | app/communities/components/ui/image-post/CozyUploadPost.tsx:73-81 | the tags and the field change as the key press states, nothing else changes, and the tags stay an ordered set |
| `ImagePost.ImagePostForm.HandleRemoveTag` | app/communities/components/ui/image-post/CozyUploadPost.tsx:83-85 | only the tags change, to the filtered list, which stays an ordered set |
| `ImagePost.ImagePostForm.PublishDisabled` | app/communities/components/ui/image-post/CozyUploadPost.tsx:317 | the publish button's `disabled` expression; `EnabledButtonPublishes` relates it to the handler's guard |
| `ImagePost.ImagePostForm.CanPublish` | app/communities/components/ui/image-post/CozyUploadPost.tsx:108 | the guard of `handlePublish`; `HandlePublish` attempts a publish exactly when it holds, and `PublishTwice` shows it false after a success |
| `ImagePost.ImagePostForm.EnabledButtonPublishes` | app/communities/components/ui/image-post/CozyUploadPost.tsx:317 | between handlers the publish button is enabled iff the handler's guard (preview, file and title) lets the publish through |
| `ImagePost.ImagePostForm.HandlePublish` | app/communities/components/ui/image-post/CozyUploadPost.tsx:107-156 | without preview, file and title nothing happens; success shows the success modal, resets preview, title, description, tags and file and schedules the close; failure records the error message and opens the error modal; `isUploading` is false afterwards |
| `ImagePost.ImagePostForm.FireClose` | app/communities/components/ui/image-post/CozyUploadPost.tsx:142-144 | the scheduled `onClose` runs once |
| `ImagePost.ImagePostForm.OnOpenChange` | app/communities/components/ui/image-post/CozyUploadPost.tsx:32-36 | closing the dialog hides the success modal |
| `ImagePost.ImagePostForm.CloseSuccess` | app/communities/components/ui/image-post/CozyUploadPost.tsx:368 | the success modal's button hides it |
| `ImagePost.ImagePostForm.ErrorModalMessage` | app/communities/components/ui/image-post/CozyUploadPost.tsx:382 | the recorded error if non-empty, else the generic message |
| `ImagePost.ImagePostForm.CloseErrorModal` | app/communities/components/ui/image-post/CozyUploadPost.tsx:384-387 | the error modal is hidden and the error forgotten |
| `ImagePost.PublishFailureShown` | app/communities/components/ui/image-post/CozyUploadPost.tsx:145-152 | after a failed publish the error modal is open and shows exactly the failure's message |
| `ImagePost.PublishTwice` | app/communities/components/ui/image-post/CozyUploadPost.tsx:134-139 | a success resets the form, so an immediate second publish is refused |
| `UploadPost.UploadPostForm.constructor` | components/CozyUploadPost.tsx:11-15 | the form starts empty |
| `UploadPost.UploadPostForm.HandleImageChange` | components/CozyUploadPost.tsx:18-27 | the first chosen file is previewed whatever its type |
| `UploadPost.UploadPostForm.HandleDrop` | components/CozyUploadPost.tsx:29-40 | the drag ends, and only an `image/` file is previewed |
| `UploadPost.UploadPostForm.HandleDragOver` | components/CozyUploadPost.tsx:42-45 | only `isDragging` becomes true |
| `UploadPost.UploadPostForm.HandleDragLeave` | components/CozyUploadPost.tsx:47-49 | only `isDragging` becomes false |
| `UploadPost.UploadPostForm.SetInputTag` | components/CozyUploadPost.tsx:208 | only the tag field changes |
| `UploadPost.UploadPostForm.HandleAddTag` | components/CozyUploadPost.tsx:51-59 | the tags and the field change as the key press states; the tags stay an ordered set |
| `UploadPost.UploadPostForm.HandleRemoveTag` | components/CozyUploadPost.tsx:61-63 | only the tags change, to the filtered list |
| `UploadPost.UploadPostForm.PublishEnabled` | components/CozyUploadPost.tsx:224 | the publish button is enabled exactly when a preview is shown; `DropVersusChoose` shows it decided by how the file arrives |
| `UploadPost.DropVersusChoose` | components/CozyUploadPost.tsx:224 | a non-image dropped on a fresh form leaves publishing disabled; the same file chosen through the input enables it iff its data URL is non-empty |
| `QuizSection.SavedValue` | app/posts/blog/components/quiz/QuizSection.tsx:96-101 | the field is set iff non-empty questions were given, and then holds exactly those questions; absent or empty questions leave it unset |
| `QuizSection.QuizSectionView.constructor` | app/posts/blog/components/quiz/QuizSection.tsx:48-51 | modal closed, not editing, quiz view, five questions |
| `QuizSection.QuizSectionView.Saved` | app/posts/blog/components/quiz/QuizSection.tsx:54 | `hasSavedQuiz`: the field holds a non-empty list; `SavedValue`, `PreviewByView` and `ModalTitle` are stated with it |
| `QuizSection.QuizSectionView.CurrentPreview` | app/posts/blog/components/quiz/QuizSection.tsx:63-94 | `handlePreview`; `PreviewByView` states which content each view selects, and `TitleMatchesPreview` relates it to the title |
| `QuizSection.QuizSectionView.PreviewByView` | app/posts/blog/components/quiz/QuizSection.tsx:63-94 | the blog view shows the blog; the quiz view shows the saved quiz iff saved and not editing, else the creator seeded with the field; any other view shows nothing |
| `QuizSection.QuizSectionView.ModalTitle` | app/posts/blog/components/quiz/QuizSection.tsx:314-320 | no saved quiz: "Crear Quiz"; saved and editing: "Editar Quiz"; saved and not editing: "Vista Previa del Quiz" |
| `QuizSection.QuizSectionView.TitleMatchesPreview` | app/posts/blog/components/quiz/QuizSection.tsx:69-91 | in the quiz view the preview title goes with the quiz display, and the create and edit titles with the creator |
| `QuizSection.QuizSectionView.HandleOnSave` | app/posts/blog/components/quiz/QuizSection.tsx:96-108 | the field becomes the saved value, editing ends, the modal stays as it is, and `onQuizChange` is called iff provided |
| `QuizSection.QuizSectionView.OpenModal` | app/posts/blog/components/quiz/QuizSection.tsx:110-116 | only the modal opens |
| `QuizSection.QuizSectionView.CloseModal` | app/posts/blog/components/quiz/QuizSection.tsx:57-61 | closing the modal also ends editing |
| `QuizSection.QuizSectionView.StartEditing` | app/posts/blog/components/quiz/QuizSection.tsx:74 | the display's edit button starts editing |
| `QuizSection.QuizSectionView.SetActiveView` | app/posts/blog/components/quiz/QuizSection.tsx:325 | only the active view changes |
| `QuizSection.QuizSectionView.SelectCountWithoutQuiz` | app/posts/blog/components/quiz/QuizSection.tsx:197-205 | on the card without a saved quiz the count changes only with a post id |
| `QuizSection.QuizSectionView.SelectCountWithQuiz` | app/posts/blog/components/quiz/QuizSection.tsx:269-275 | on the card with a saved quiz the count always changes; it stays 3, 5 or 7 |
| `QuizSection.QuizSectionView.HandleAIGenerate` | app/posts/blog/components/quiz/QuizSection.tsx:118-145 | no post id: no request, nothing changes; empty result or failure: nothing changes; success: the quiz is set, the modal opens and `onQuizChange` is called |
| `QuizSection.SaveInModal` | app/posts/blog/components/quiz/QuizSection.tsx:102-103 | saving keeps the modal open and ends editing, and the title is then the preview title iff questions were kept |
| `QuizSection.GenerateThenPreview` | app/posts/blog/components/quiz/QuizSection.tsx:132-135 | a successful generation opens the modal on the generated quiz under the preview title |
| `AIQuizGenerator.AIQuizGeneratorView.constructor` | app/posts/blog/components/quiz/AIQuizGenerator.tsx:20-22 | not generating, no error, five questions |
| `AIQuizGenerator.AIQuizGeneratorView.Disabled` | app/posts/blog/components/quiz/AIQuizGenerator.tsx:64 | the buttons' `disabled` expression, generating or without a post id; `ClickGenerate` and `SelectCount` change nothing when it holds |
| `AIQuizGenerator.AIQuizGeneratorView.GenerateQuiz` | app/posts/blog/components/quiz/AIQuizGenerator.tsx:24-34 | without post id: the save-first error, no request, not generating; with one: generating, error cleared, the request for that post and count |
| `AIQuizGenerator.AIQuizGeneratorView.FinishGenerate` | app/posts/blog/components/quiz/AIQuizGenerator.tsx:34-56 | empty result or failure: its error, form untouched; non-empty result: the form quiz is exactly those questions and the same list goes to the callback; never generating afterwards |
| `AIQuizGenerator.AIQuizGeneratorView.ClickGenerate` | app/posts/blog/components/quiz/AIQuizGenerator.tsx:62-64 | a disabled button (generating or no post id) ignores the click; an enabled one asks for the selected count |
| `AIQuizGenerator.AIQuizGeneratorView.SelectCount` | app/posts/blog/components/quiz/AIQuizGenerator.tsx:87-91 | a disabled count button changes nothing; an enabled one selects its count, which stays 3, 5 or 7 |
| `AIQuizGenerator.GenerateRound` | app/posts/blog/components/quiz/AIQuizGenerator.tsx:24-57 | a click and its answer: generation is over, and the form holds the questions iff some came back, with an error recorded otherwise |
| `DiagramCreate.SubmitValid` | app/posts/diagram/create/page.tsx:27 | the submit check: some elements and a title that is not blank; `HandleSubmit` sends exactly when it holds and `BlankTitleRefused` shows a blank title refused |
| `DiagramCreate.ThrownMessage` | app/posts/diagram/create/page.tsx:57 | the error's own message if non-empty, else the generic one |
| `DiagramCreate.CreateDiagramPage.constructor` | app/posts/diagram/create/page.tsx:10-15 | the page starts empty, not submitting |
| `DiagramCreate.CreateDiagramPage.SetTitle` | app/posts/diagram/create/page.tsx:76 | only the title changes |
| `DiagramCreate.CreateDiagramPage.HandleDiagramChange` | app/posts/diagram/create/page.tsx:17-23 | the editor's elements and app state are stored as given, nothing else changes |
| `DiagramCreate.CreateDiagramPage.HandleSubmit` | app/posts/diagram/create/page.tsx:25-39 | no elements or a blank title: only the fixed error is set; otherwise submitting starts with error and success cleared and the current title, elements and app state are sent |
| `DiagramCreate.CreateDiagramPage.SubmitSettled` | app/posts/diagram/create/page.tsx:41-61 | success: the success message and an empty title, elements kept; a thrown error: its message; never submitting afterwards |
| `DiagramCreate.BlankTitleRefused` | app/posts/diagram/create/page.tsx:27-30 | a white-space-only title is refused with the fixed error whatever the drawing holds |
| `DiagramCreate.SaveThenResubmit` | app/posts/diagram/create/page.tsx:53-54 | after a save the title is empty and the elements kept, so a second submit is refused |

## Left out

- **Props.** `QuizSectionView.postId` and `hasOnQuizChange`, `AIQuizGeneratorView.postId` and `hasOnQuizGenerated`, and `SocketStatusView.showConnectionStatus` are React props that can change between renders (the post id, for example, arrives once the blog is saved). The model fixes each of them at construction, as a `const`.
- **Socket transport.** The socket.io transport, the handshake, reconnection and server-side events are not modelled. Server events are environment methods on the handle (`Acknowledge`, `Drop`). The server URL and the transport options are not modelled either.
- **Timers.** A `setTimeout` delay is not modelled as time. Two timers become pending counters fired by the environment: the login's connect and the upload form's close. The diagram page's simulated 1000 ms call is the gap between `HandleSubmit` and `SubmitSettled`.
- **Store plumbing.** zustand's `create`, the `devtools` middleware and the `persist` middleware with its sessionStorage JSON storage are left out. These are library plumbing and persistence I/O. Rehydrating a persisted socket is not modelled.
- **`decodeURIComponent`.** It is an abstract total function, the store's `decode`. Its `URIError` on malformed input is foreign behaviour.
- **`document`.** `document` is an `Option` parameter, and `None` stands for no `document`. The cookie text is an input to each connecting operation.
- **String indexing.** A Dafny `char` is a Unicode scalar value, while a JavaScript string is a sequence of UTF-16 code units. Lone surrogates cannot be represented, and outside the Basic Multilingual Plane `ShortId`'s five characters differ from `substring(0, 5)`'s five code units.
- **Arithmetic.** `progressPercentage` is computed in exact integer arithmetic. Floating-point division can differ by one at exact boundaries, and non-integer experience values are not modelled.
- **Tag colours.** `getRandomTagColor` uses `Math.random` and only styles the tags.
- **File reading.** The FileReader's asynchronous read is folded into the handler, and the data URL is an input. In the code the preview appears only when the read ends.
- **HTTP calls.** The upload and post requests (`uploadToCloudinary`, `privateApiClient`) and the AI quiz service are outside the model. Their outcome is an input.
- **Atomic handlers.** `ImagePost.ImagePostForm.HandlePublish` and `QuizSection.QuizSectionView.HandleAIGenerate` run as one step. User events that could arrive during their `await` are not modelled. The upload form disables its `<input>` elements while uploading, but its drop zone stays active (app/communities/components/ui/image-post/CozyUploadPost.tsx:204-206). A drop during an upload whose file read ends after the success reset would leave a preview without a held file; that interleaving is among the events not modelled, and `ImagePostForm.Valid()` holds only without it.
- **Socket listeners.** The `SocketStatus` subscription re-attaches listeners on every store update, and those listeners leak. Which sockets carry listeners is not tracked, so the event methods may be called for any socket.
- **`console` logging.** All `console` logging is left out.
- **Rendering.** JSX markup and styling are left out, apart from the values the model returns: the badge, the preview choice, the titles and the disabled conditions. The quiz modal, the quiz display and creator, the blog preview and the view toggler are not part of this model. The views are represented by the `Preview` datatype. `activeView` is a string, and any value other than `"blog"` or `"quiz"` shows nothing.
- **The `quiz` field.** It is `Option<seq<Q>>`, so a value that is not an array is modelled as unset. A post id is an optional integer, and it is falsy when missing or 0; `NaN` is not modelled.
- **Form validation.** The react-hook-form plumbing (`watch`, `setValue`, `getValues`) is reduced to a `quiz` field in each component.
- **Other files.** Rendering, navigation and fetch-effect files of the repository are not part of this model. Neither are the example components and the type-only files.
