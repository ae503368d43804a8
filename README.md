# Chat client core, modelled in Dafny

This project models the rule-bearing core of a Next.js chat client that talks
to a hosted model provider and keeps its users, conversations, messages and
attachments in a Supabase database. The model covers:

- **Quota and rate limiting.**
  - The server-side daily premium-query step of `PATCH /api/user-settings`:
    - the counter resets to 50 on a new day;
    - models whose name contains `free` in any letter case are never charged;
    - a premium request is refused with 403 at zero, and otherwise costs one query.
  - The API-key schema and key mapping of `GET` and `POST`.
  - The fixed-window, per-IP limiter that three routes copy, with limits of 30, 30 and 10 requests per minute.
  - The client-side counter mirror, with `set`, `decrement` and `reset`.
- **The model list route.** It picks the provider's array, keeps only objects with a string `id`, maps each to `{ name, description, price_per_million }`, and serves a one-hour cache.
- **The image generation route.** Its order of early-return checks and its choice of upstream error message.
- **The chat request assembly.** A default model, and one system message naming the attachments.
- **The chat input.**
  - File validation.
  - The attachment list: `pending` entries, upload outcomes, removal.
  - The send decision and its error normalisation.
  - The image-preview test.
- **The image upload widget.** It validates the first file and tracks the `isUploading` state.
- **The optimistic conversation-list cache.**
  - Create prepends a provisional `temp-` row, then replaces it with the server row or rolls back.
  - Rename maps over the list and delete filters it; both keep a rollback snapshot.
- **Provisional ids.** The `temp-` guard that keeps provisional ids away from the database (messages query, model store).
- **The per-conversation model store.** It hydrates each conversation once.
- **The active-conversation cell.**
- **The sidebar.** Its title search, its four age groups and its "New chat" guard.

How the model stands in for the outside world:

- **Clocks, randomness and storage.** Wall-clock time, the random parts of ids and storage paths, and browser local storage are parameters.
- **Databases and services.** The database, the auth provider and the model provider are maps or given answers:
  - an `Outcome` is either a value or a thrown error;
  - `Option` stands for a row that may be missing;
  - `updateError` and `storeError` stand for what a write reports.
- **Asynchronous steps.** These are split where the order of events matters. The model store's `hydrateModel` is `HydrateModel` followed later by `Resolve`.
- **Mutable state.** Zustand stores, the react-query cache, route-level maps and React component state are classes whose methods state the whole new state.

## Model

| member | source | states |
|---|---|---|
| RateLimit.ClientKey | app/api/user-settings/route.ts:35 | the client key is the `x-forwarded-for` header, or "unknown" when it is missing or empty; it is never empty |
| RateLimit.Touch | app/api/user-settings/route.ts:36-42 | a new client, or a window older than 60 000 ms (strictly), restarts at count 1 at `now`; otherwise the window start is kept and the count goes up by one |
| RateLimit.WindowCountsEveryCall | app/api/user-settings/route.ts:34-48 | within one window every call is counted, rejected ones included, and at most `limit - c` further calls are let through |
| RateLimit.AtMostLimitPerWindow | app/api/user-settings/route.ts:31-48 | a client gets at most `limit` calls through among calls within 60 000 ms of its first one |
| RateLimit.RateLimiter.constructor | app/api/user-settings/route.ts:30-31 | a limiter starts with an empty map and the route's limit |
| RateLimit.RateLimiter.Check | app/api/user-settings/route.ts:34-47 | the map gains the touched entry for the ip and nothing else changes; the call is refused iff the new count exceeds the limit |
| PremiumQueryCount.DecrementedCount | hooks/use-premium-query-count-store.ts:15 | unlimited: unchanged; limited: one less when positive, 0 otherwise, never negative |
| PremiumQueryCount.RepeatedDecrement | hooks/use-premium-query-count-store.ts:15 | n decrements from a non-negative count leave `max(count - n, 0)` for a limited user and the count unchanged for an unlimited one |
| PremiumQueryCount.PremiumQueryCountStore.constructor | hooks/use-premium-query-count-store.ts:12-13 | the store starts at 50 queries, not unlimited |
| PremiumQueryCount.PremiumQueryCountStore.Set | hooks/use-premium-query-count-store.ts:14 | both fields take exactly the given values |
| PremiumQueryCount.PremiumQueryCountStore.Decrement | hooks/use-premium-query-count-store.ts:15 | the count becomes `DecrementedCount` of the old state and the flag is kept |
| PremiumQueryCount.PremiumQueryCountStore.Reset | hooks/use-premium-query-count-store.ts:16 | back to 50 and not unlimited, whatever the prior state |
| UserSettings.ParseKeyInput | app/api/user-settings/route.ts:5-7 | a body is valid iff it is an object whose key field is absent, or a string of at most 128 characters (the empty string included) |
| UserSettings.StoredKey | app/api/user-settings/route.ts:79-83 | an absent or empty key stores null; otherwise the given string is stored |
| UserSettings.StoredKeyReported | app/api/user-settings/route.ts:62-83 | after a successful POST, GET reports a key iff the posted key was a non-empty string |
| UserSettings.UserFromAuthHeader | app/api/user-settings/route.ts:18-27 | a user is found iff the header is non-empty and its token, after removing the first `Bearer `, is non-empty and known; the user is that token's |
| UserSettings.BearerHeaderAuthenticates | app/api/user-settings/route.ts:21 | `Bearer <token>` authenticates as the token's user |
| UserSettings.CountForToday | app/api/user-settings/route.ts:106-110 | the counter is reset to 50 unless the stored reset date is today |
| UserSettings.ChargeFor | app/api/user-settings/route.ts:106-117 | a free model is never refused and never charged; a premium model is refused iff today's count is at most 0 (or null), and is otherwise charged exactly one; the date becomes today |
| UserSettings.GrantedWithinBudget | app/api/user-settings/route.ts:106-117 | over any sequence of requests on one day, the premium requests let through never exceed the budget left at the start |
| UserSettings.AtMostFiftyPremiumPerDay | app/api/user-settings/route.ts:107-117 | from a reset day, at most 50 premium requests are let through, whatever the mix of free and premium ones |
| UserSettings.ModelField | app/api/user-settings/route.ts:95 | the `model` field is read exactly when the body is an object holding a string there |
| UserSettings.UserSettingsRoute.constructor | app/api/user-settings/route.ts:30-31 | the route's limiter allows 30 requests and starts empty |
| UserSettings.UserSettingsRoute.Get | app/api/user-settings/route.ts:50-66 | the rate limit is counted first (429), then auth (401); the reply is the key flag, the counter and the reset date of the caller's row |
| UserSettings.UserSettingsRoute.Post | app/api/user-settings/route.ts:69-86 | the checks run in order (429, 401, 400 "Invalid input", 500); only a successful save changes the table, writing the mapped key into the caller's row |
| UserSettings.UserSettingsRoute.Patch | app/api/user-settings/route.ts:89-125 | the checks run in order (429, 401, a null body throws and gives 500, 400 "Model required", 403 "Query limit reached", 500); only a successful charge writes the row, and the reply carries the new count |
| ModelsRoute.SelectModelsArray | app/api/models/route.ts:50-60 | the models are the answer itself if it is an array, else its `models` array; otherwise the answer is malformed, or, for null, reading the field throws |
| ModelsRoute.Describe | app/api/models/route.ts:77-81 | name is the id; description is a truthy `display_name` or ""; price is `pricing.input` unless that is null or undefined, so 0 is kept |
| ModelsRoute.Normalize | app/api/models/route.ts:75-81 | the output describes, in order, exactly the model objects of the input and is no longer than it |
| ModelsRoute.NormalizeMembership | app/api/models/route.ts:67-81 | every model object of the input is described in the output, and every output entry comes from one |
| ModelsRoute.NoModelsNoEntries | app/api/models/route.ts:75-81 | an input without model objects gives the empty list |
| ModelsRoute.FromUpstream | app/api/models/route.ts:44-90 | a list is served iff the provider answered with a usable array; every failure is a 500, and "Malformed response" is given exactly for a non-array answer |
| ModelsRoute.ModelsRoute.constructor | app/api/models/route.ts:1-8 | no cached list, timestamp 0, a limiter of 30 |
| ModelsRoute.ModelsRoute.Get | app/api/models/route.ts:10-91 | a missing key gives 500 before the limiter counts; then 429; a fresh cache is served without fetching; the cache and its timestamp change only when a fetched list is served |
| GenerateImage.UpstreamError | app/api/generate-image/route.ts:72 | the error is the first truthy of `error.message`, `error`, the body text and "Failed", and so is always truthy |
| GenerateImage.ReplyFor | app/api/generate-image/route.ts:51-74 | a rejected `fetch` (outside any `try`) gives the framework's 500; a non-JSON body gives its text (or "Unknown error"), a non-ok status gives the best error message, both with the provider's status; otherwise the parsed answer is passed on |
| GenerateImage.GenerateImageRoute.constructor | app/api/generate-image/route.ts:5-7 | the route's limiter allows 10 requests and starts empty |
| GenerateImage.GenerateImageRoute.Post | app/api/generate-image/route.ts:9-75 | the checks run in order: 429, 500 for a null body (destructuring it throws), 400 "Missing prompt", 401 "Missing auth", 401 for an empty or unknown token, then 400 for a missing key; a request is sent only when all pass, with the fixed model and 4 steps, and a rejected `fetch` then gives 500 |
| ChatRoute.ModelOf | app/api/chat/route.ts:6 | the default model applies only when `model` is absent |
| ChatRoute.CheckAttachments | app/api/chat/route.ts:9 | a system message is added iff the attachments are a non-empty array; a falsy value adds none; a non-empty string throws at `join` |
| ChatRoute.ElementText | app/api/chat/route.ts:11 | `join` renders a string as itself and null as the empty string |
| ChatRoute.Texts | app/api/chat/route.ts:11 | the parts of the join are each attachment's rendering, in order |
| ChatRoute.SystemMessage | app/api/chat/route.ts:11 | the message has exactly a `system` role and the fixed prefix followed by the attachments joined by newlines |
| ChatRoute.Spread | app/api/chat/route.ts:12 | spreading an array gives its items, a string its characters; anything else throws |
| ChatRoute.Assemble | app/api/chat/route.ts:5-20 | streaming is always requested; without attachments the messages pass unchanged; with them, one system message is put in front of the spread messages |
| ChatRoute.OneSystemMessagePrepended | app/api/chat/route.ts:8-14 | with attachments exactly one message is added, a system one, first, and the original messages follow in order |
| ChatRoute.SystemMessageNamesEachAttachment | app/api/chat/route.ts:11 | the system message's text contains every string attachment |
| Common.TrimEmptyIff | components/chat/chat-input.tsx:130 | the trimmed draft is empty iff the draft is all JavaScript whitespace |
| FileUpload.Validate | components/chat/file-upload.tsx:21-32 | an empty or missing selection is ignored; only the first file is checked: its type must be png, jpeg or webp, then its size at most 10 MiB, each failure with its own message |
| FileUpload.OnlyFirstFileCounts | components/chat/file-upload.tsx:24 | files after the first never change the verdict |
| FileUpload.SizeCeilingIsInclusive | components/chat/file-upload.tsx:29-32 | exactly 10 MiB passes and one byte more is rejected |
| FileUpload.Payload | components/chat/file-upload.tsx:41 | `onUpload` receives the file's own name, type and size with the encoded text |
| FileUpload.UploadingAfterReadAsWritten | components/chat/file-upload.tsx:33-40 | as written, a failed read leaves `isUploading` as it was |
| FileUpload.ReadFailureLeavesWidgetBusy | components/chat/file-upload.tsx:33-40 | as written, an accepted file whose read fails leaves the widget uploading, and so disabled |
| FileUpload.FileUploadWidget.constructor | components/chat/file-upload.tsx:18-19 | no error, not uploading |
| FileUpload.FileUploadWidget.HandleFiles | components/chat/file-upload.tsx:21-34 | the error is cleared; a rejected file sets its message; only an accepted file starts the upload state and is read |
| FileUpload.FileUploadWidget.FinishRead | components/chat/file-upload.tsx:34-41 | the upload state ends on either outcome; only a successful read yields the payload |
| ChatInput.Rejection | components/chat/chat-input.tsx:45-57 | a file is skipped iff its type is not among the seven allowed, or it is larger than 10 MiB, with the message for the first check it fails |
| ChatInput.FilePathFor | components/chat/chat-input.tsx:66-67 | the storage path is `uploads/<stamp>.<extension>`, and the extension is a suffix of the name |
| ChatInput.EntryFor | components/chat/chat-input.tsx:68-81 | an accepted file appends a `pending` entry with its name, type, size, path and preview URL |
| ChatInput.AppendedAreAcceptedFiles | components/chat/chat-input.tsx:49-81 | a selection appends exactly the entries of its accepted files, in selection order; skipped files do not stop the rest |
| ChatInput.UploadErrorIsLastRejection | components/chat/chat-input.tsx:49-57 | the upload error shown is the message of the last skipped file, and none iff every file is accepted |
| ChatInput.Marked | components/chat/chat-input.tsx:90-103 | an upload outcome changes only the entries with its path: to `error` with the store's message, to `uploaded` with the public URL, or to `error` "Upload failed" |
| ChatInput.Removed | components/chat/chat-input.tsx:110-112 | removing a path drops exactly the entries with that path and keeps the order of the rest |
| Common.FilterMultiplicity | components/chat/chat-input.tsx:110-112 | `filter` keeps every copy of a kept value and no copy of a dropped one |
| ChatInput.RemovedThenMarkedIsRemoved | components/chat/chat-input.tsx:90-112 | an upload outcome and a removal of the same path give the same list in either order |
| ChatInput.NormalizeError | components/chat/chat-input.tsx:158-166 | a string `message` is shown, else a string error itself, else "Send failed" |
| ChatInput.ImagePreviewIgnoresCase | components/chat/chat-input.tsx:210 | the preview's name test ignores letter case |
| ChatInput.AcceptedImagesArePreviewed | components/chat/chat-input.tsx:210 | every accepted image type is previewed as an image |
| ChatInput.RowFor | components/chat/chat-input.tsx:148-154 | an attachment row carries the entry's name, path, size and type, and the message id |
| ChatInput.RowsFor | components/chat/chat-input.tsx:147-155 | one row per entry, whatever its upload status, in list order |
| ChatInput.Decide | components/chat/chat-input.tsx:130-166 | an empty draft does nothing; without an active conversation one is created only for a signed-in user with no creation pending, else "No conversation available"; the send succeeds iff a conversation is at hand and the message insert succeeds |
| ChatInput.ErrorAfter | components/chat/chat-input.tsx:140-166 | no error after a success or an empty draft; the fixed message without a conversation; the normalised error after a failed insert |
| ChatInput.NoConversationWritesNothing | components/chat/chat-input.tsx:133-143 | with no active conversation and no signed-in, idle user, the send stops with "No conversation available" |
| ChatInput.ResolveConversation | components/chat/chat-input.tsx:133-143 | the active id is used when set; otherwise a `GPT-4o` conversation is created through the create mutation and becomes active, and a store error ends the send as a failed creation; otherwise nothing changes and the send ends with no conversation |
| ChatInput.WriteAttachmentRows | components/chat/chat-input.tsx:147-155 | the loop writes exactly `RowsFor` of the entries |
| ChatInput.ChatInputState.constructor | components/chat/chat-input.tsx:22-35 | empty draft, no attachments, no errors |
| ChatInput.ChatInputState.SetInputValue | components/chat/chat-input.tsx:26 | only the draft text changes |
| ChatInput.ChatInputState.HandleFileChange | components/chat/chat-input.tsx:40-108 | the list grows by exactly `Appended` of the selection, the upload error is the last rejection, and one upload starts per appended entry, for its path, in order |
| ChatInput.ChatInputState.MarkUpload | components/chat/chat-input.tsx:90-103 | the list becomes `Marked` of the old list; nothing else changes |
| ChatInput.ChatInputState.RemoveAttachment | components/chat/chat-input.tsx:110-112 | the list becomes `Removed` of the old list; nothing else changes |
| ChatInput.ChatInputState.Submit | components/chat/chat-input.tsx:127-167 | the outcome the steps reach (nothing to send, the resolution's failure, a failed or a sent message) is the one `Decide` gives for the trimmed draft, the active id and the store's answers, and the error shown is its message; the draft is cleared only when sent; the message and its rows are written only with a conversation; the cache and the active id change only through a creation |
| ConversationCache.QueryCache.Get | hooks/use-create-conversation.ts:38 | a user without cached data reads as the empty list |
| ConversationCache.QueryCache.Put | hooks/use-create-conversation.ts:51 | only the given user's list is replaced |
| CreateConversation.TitleOf | hooks/use-create-conversation.ts:28 | the title defaults to "New Chat" only when none is given |
| CreateConversation.InsertPayload | hooks/use-create-conversation.ts:25-29 | the insert carries the owner, the model and the defaulted title |
| CreateConversation.InsertResult | hooks/use-create-conversation.ts:23-33 | of the store's `(data, error)` pair, the mutation throws iff an error is present, and then throws that error; otherwise it returns the inserted row |
| CreateConversation.OptimisticRow | hooks/use-create-conversation.ts:39-50 | the optimistic row has a `temp-` id, the defaulted title, three equal timestamps and is not archived |
| CreateConversation.WithCreated | hooks/use-create-conversation.ts:60-65 | after success the server row leads, followed by the current list without the provisional id, in order |
| CreateConversation.CreatedReplacesTempRow | hooks/use-create-conversation.ts:36-66 | prepend then replace gives the server row followed by exactly the previous list, with no provisional row left |
| CreateConversation.OnMutate | hooks/use-create-conversation.ts:35-53 | an empty user id does nothing; otherwise the optimistic row is prepended and the previous list and temp id are the context |
| CreateConversation.OnError | hooks/use-create-conversation.ts:54-58 | the snapshot comes back exactly |
| CreateConversation.OnSuccess | hooks/use-create-conversation.ts:59-66 | the cached list becomes `WithCreated` of the current list |
| CreateConversation.Create | hooks/use-create-conversation.ts:17-71 | a whole mutation: on error the user's list is as before, on success it is the server row followed by the previous list; other users' lists are untouched |
| CreateConversation.CallerOptions | hooks/use-create-conversation.ts:6-15 | a caller's options object has exactly the keys it gives, each holding the caller's handler |
| CreateConversation.Spread | hooks/use-create-conversation.ts:17-70 | object spread keeps every key of both objects, and a key of the later object overrides the earlier one's |
| CreateConversation.MergedOptions | hooks/use-create-conversation.ts:17-70 | the options `useMutation` receives have the hook's four keys and the caller's |
| CreateConversation.MergedSlots | hooks/use-create-conversation.ts:17-70 | after the spread, `onSuccess` is the caller's iff the caller gives one, every hook slot the caller does not give stays the hook's, and every key the caller gives is the caller's |
| CreateConversation.RunsHookOnSuccess | hooks/use-create-conversation.ts:59-70 | as written, the merged `onSuccess` is the hook's iff the caller's options have no `onSuccess` key |
| CreateConversation.CacheAfterSuccessAsWritten | hooks/use-create-conversation.ts:59-70 | as written, a successful insert replaces the provisional row when the caller gives no `onSuccess`, and leaves the cached list exactly as it is when the caller gives one |
| CreateConversation.TempRowSurvivesAsWritten | hooks/use-create-conversation.ts:59-70 | as written, with a caller's `onSuccess` the provisional row stays first and the server row is missing |
| UpdateConversation.Renamed | hooks/use-update-conversation.ts:24 | entries with the id get the new title and every other entry is unchanged; length and order are kept |
| UpdateConversation.RenameIdempotent | hooks/use-update-conversation.ts:24 | renaming twice to one title is renaming once |
| UpdateConversation.RenameLastWins | hooks/use-update-conversation.ts:24 | of two renames of one conversation the last title wins |
| UpdateConversation.RenamesOfDifferentIdsCommute | hooks/use-update-conversation.ts:24 | renames of different conversations commute |
| UpdateConversation.RenameKeepsIds | hooks/use-update-conversation.ts:24 | a rename changes no field but the title |
| ConversationCache.WriteResult | hooks/use-update-conversation.ts:12-18 | a write whose store answer carries an error throws exactly that error; otherwise it succeeds (the delete hook's lines 12-18 are the same) |
| UpdateConversation.OnMutate | hooks/use-update-conversation.ts:19-27 | the renamed list is cached and the previous one returned as the snapshot |
| UpdateConversation.OnError | hooks/use-update-conversation.ts:28-32 | the snapshot comes back exactly |
| UpdateConversation.Rename | hooks/use-update-conversation.ts:11-32 | a whole rename: on error the list is as before, on success it is renamed |
| DeleteConversation.Without | hooks/use-delete-conversation.ts:24 | exactly the entries with the id are removed, the rest keep their order |
| DeleteConversation.DeleteAbsentIsIdentity | hooks/use-delete-conversation.ts:24 | deleting an id that is not listed changes nothing |
| DeleteConversation.DeleteIdempotent | hooks/use-delete-conversation.ts:24 | deleting twice is deleting once |
| DeleteConversation.OnMutate | hooks/use-delete-conversation.ts:19-27 | the filtered list is cached and the previous one returned as the snapshot |
| DeleteConversation.OnError | hooks/use-delete-conversation.ts:28-32 | the snapshot comes back exactly |
| DeleteConversation.Delete | hooks/use-delete-conversation.ts:11-32 | a whole delete: on error the list is as before, on success it is filtered |
| ConversationModelStore.GetLocalMap | hooks/use-conversation-model-store.ts:6-12 | a missing or unparseable local map reads as empty |
| ConversationModelStore.LocalModel | hooks/use-conversation-model-store.ts:60-62 | a local model counts only when it is present and non-empty |
| ConversationModelStore.FetchModel | hooks/use-conversation-model-store.ts:31-40 | an empty or `temp-` id never reaches the store; an error, a missing row or an empty model gives none |
| ConversationModelStore.SyncFor | hooks/use-conversation-model-store.ts:26-29 | an update is sent iff the id is non-empty and not provisional |
| ConversationModelStore.Preferred | hooks/use-conversation-model-store.ts:57-86 | the store's model wins over the local copy, which wins over the fallback |
| ConversationModelStore.ModelStore.constructor | hooks/use-conversation-model-store.ts:42-44 | both maps start empty |
| ConversationModelStore.ModelStore.GetModel | hooks/use-conversation-model-store.ts:56 | the selection of an id, if any |
| ConversationModelStore.ModelStore.SetModel | hooks/use-conversation-model-store.ts:45-55 | the id selects the model (read back by `GetModel`), other ids and the hydrated flags are kept, the local map gains the entry, and a sync is sent unless the id is provisional or empty |
| ConversationModelStore.ModelStore.HydrateModel | hooks/use-conversation-model-store.ts:57-77 | an already hydrated id is a no-op; a local model is selected at once and hydrates the id; otherwise nothing changes until the fetch resolves |
| ConversationModelStore.ModelStore.Resolve | hooks/use-conversation-model-store.ts:67-86 | after a local hit the remote model replaces it only when present and different; otherwise the remote model or the fallback is selected and the id hydrated |
| ConversationModelStore.ModelStore.HydrateAndResolve | hooks/use-conversation-model-store.ts:57-86 | a first hydration hydrates the id and selects the preferred model; other ids keep their selection |
| UseMessages.QueryFn | hooks/use-messages.ts:9-18 | a non-real id gives `[]` without a request; a real one asks for that conversation's messages, ascending by `created_at` |
| UseMessages.Options | hooks/use-messages.ts:7-23 | the query is enabled iff the id is real; one minute fresh, ten minutes kept, empty placeholder |
| UseMessages.RemoteGuardsAgree | hooks/use-messages.ts:6 | the messages query and the model store refuse exactly the same ids |
| UseMessages.OptimisticRowNotQueried | hooks/use-messages.ts:6-10 | an optimistic row's messages are never fetched |
| ActiveConversation.ActiveConversationStore.constructor | hooks/use-active-conversation.ts:9 | the active id starts as null |
| ActiveConversation.ActiveConversationStore.SetActiveConversationId | hooks/use-active-conversation.ts:10 | the cell takes exactly the given value, so null clears it and the last set wins |
| Sidebar.GroupOf | components/chat/sidebar.tsx:25-30 | each group is given iff the age is in its range: under one day, one to seven, seven to thirty, more; future dates are Today and unparseable ones Older |
| Sidebar.InGroup | components/chat/sidebar.tsx:24-31 | a group holds exactly the conversations whose age falls in its range |
| Sidebar.GroupKeepsOrder | components/chat/sidebar.tsx:24-31 | each group keeps the input order |
| Sidebar.GroupConversations | components/chat/sidebar.tsx:18-38 | the loop returns four groups, labelled, in the fixed order, each equal to `InGroup` |
| Sidebar.InGroupSnoc | components/chat/sidebar.tsx:24-31 | a conversation at the end joins exactly its own group |
| Sidebar.GroupsPartition | components/chat/sidebar.tsx:24-31 | the group sizes add up to the input length |
| Sidebar.EveryConversationInOneGroup | components/chat/sidebar.tsx:24-37 | every conversation is in exactly one group |
| Sidebar.Search | components/chat/sidebar.tsx:79-81 | the search keeps exactly the conversations whose lower-cased title contains the lower-cased query, in order |
| Sidebar.EmptySearchKeepsAll | components/chat/sidebar.tsx:79-81 | an empty search keeps all |
| Sidebar.SearchIgnoresCase | components/chat/sidebar.tsx:79-81 | the query's letter case does not matter |
| Sidebar.DefaultModel | components/chat/sidebar.tsx:77 | the default model is the first listed model's name, once a non-empty list has loaded |
| Sidebar.NewChat | components/chat/sidebar.tsx:58-61 | a creation starts iff a user is signed in and none is pending, with the default model or "" |

## Left out

- Network, database, auth provider and model provider calls are not modelled as calls. Their answers are parameters: `Outcome`, `Option`, `upstream`, `updateError` and `storeError`.
- Response streaming, the provider SDK client, the storage upload itself, `FileReader`, `createObjectURL` and `console` logging are I/O.
- react-query invalidation and refetching after a mutation are not modelled.
  - The rename and delete hooks also put `...options` after their own `onSuccess`, but there that only replaces the invalidation.
- Cancelling in-flight queries in `onMutate` is not modelled.
- Interleavings of asynchronous steps are not modelled, except the split of `hydrateModel` into `HydrateModel` and `Resolve`.
- A request body that is not JSON makes `request.json()` throw. That case is not modelled: every handler is given the parsed body.
- A route handler that throws is answered by the framework with a 500. The model gives that answer the text `Internal Server Error` and does not model the framework's response body.
- ChatInput.ResolveConversation, ChatInput.ChatInputState.Submit: both use the corrected create mutation (the hook's `onSuccess` runs). As written, the chat input passes its own `onSuccess`, so after a successful creation the cached list stays the optimistic row followed by the previous list (CreateConversation.CacheAfterSuccessAsWritten with CreateConversation.CALLER_KEYS); the Findings table logs this.
- UserSettings.ModelField: a truthy non-string `model` in a PATCH body is treated as missing. The source would coerce it to a string for the `free` test.
- UserSettings.UserSettingsRoute.Get, Post and Patch, GenerateImage.GenerateImageRoute.Post:
  - The row lookup error of `.single()` is a 500 with the fixed text "User not found" rather than the store's message.
  - POST to a user without a row is modelled as a no-op update.
- Common.ToLower lower-cases ASCII letters only, not the full Unicode case mapping of `toLowerCase`.
- String lengths are counted in characters, not UTF-16 code units.
- ChatRoute.ElementText renders numbers, arrays and objects as the empty string. `join` would print their JavaScript text.
- ChatRoute.CheckAttachments: only a numeric `length` field of an object is looked at. Other values coerced by `length > 0` are treated as not positive.
- ConversationModelStore.GetLocalMap: stored text that parses to a non-object (for example a number) is treated as unparseable.
- Prices and JSON numbers are reals. No floating-point rounding is modelled.
- The sidebar's day arithmetic is done on integer milliseconds (`now - created < n * DAY_MS`), not by dividing to a fractional number of days. The comparisons are the same.
- Two files selected together with the same random storage stamp are not ruled out. Their entries would share a path, and the model then updates both together, as the source would.

## Findings

| source | as written | input that shows it | evidently intended | confidence | as-written member | corrected member |
|---|---|---|---|---|---|---|
| hooks/use-create-conversation.ts:59-70 | the options are `{ ..., onSuccess, ...options }`, so a caller's `onSuccess` replaces the hook's; both callers (components/chat/chat-input.tsx:16-20, components/chat/sidebar.tsx:42-46) pass one | any successful creation from the chat input or the collapsed sidebar: the cached list keeps the `temp-` row first and lacks the server row | the hook replaces the provisional row with the server row, then calls the caller's `onSuccess` (as its line 68 shows) | high; not executed | CreateConversation.CacheAfterSuccessAsWritten, CreateConversation.TempRowSurvivesAsWritten | CreateConversation.OnSuccess, CreateConversation.CreatedReplacesTempRow |
| components/chat/file-upload.tsx:33-40 | `isUploading` is set, then the read is awaited without `try`; a failing read rejects before `setIsUploading(false)` | a valid image whose read fails: the input and button (lines 62, 69) stay disabled for good | the upload state ends whatever the outcome of the read | medium; not executed | FileUpload.UploadingAfterReadAsWritten, FileUpload.ReadFailureLeavesWidgetBusy | FileUpload.FileUploadWidget.FinishRead |
