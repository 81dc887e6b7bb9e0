# MyGPT chat core in Dafny

MyGPT is a Next.js chat application. Signed-in users hold conversations with
a language model, and the conversations are stored in a MongoDB `chats`
collection. Images and files can be attached. A long-term memory service
(mem0) remembers facts and preferences across conversations. This project
models the core of that application and proves properties about it:

- **Conversation store** (`lib/chatService.ts`, module `ChatStore`).
  - The collection is a map from (chat id, owner id) to the chat document. `ChatService` is a class whose `chats` field the methods update.
  - Each method is proved equal to a function on the map.
  - Proved properties of those functions:
    - appending messages is idempotent, keeps the incoming order, and never duplicates an id when the incoming batch repeats no id (a batch that repeats an id not yet stored has both copies appended);
    - cutting a conversation at a message keeps exactly the messages before the first occurrence of that id;
    - sharing and unsharing revoke tokens correctly;
    - the listing order is a sort on `lastMessageAt`, then `updatedAt`, newest first;
    - generated titles shorten to 50 characters plus an ellipsis.
- **Memory manager** (`lib/memory.ts`, module `Memory`).
  - `getAllMemories` sorts each memory into one of three buckets. Preference words win, then fact patterns, then context. The three buckets partition the memories.
  - The context-window trimming keeps every system message and the 20 most recent other messages.
  - A transcript is stored only when it is longer than 100 characters.
  - Retrieval takes a prefix of the non-empty search results.
  - The enriched system prompt always starts with the base prompt and always ends with the usage instruction. Only the first three preferences and facts reach it.
  - Cleanup with 0 days deletes every memory. With any other number of days, memories without a timestamp are kept.
  - The statistics counts add up to the total.
- **Chat endpoint** (`app/api/chat/route.ts`, module `ChatRoute`).
  - Each message becomes a model message with text and image parts. A lone text collapses to a plain string, and an empty content falls back to the message's `content`.
  - The conversion throws, and the handler answers 500, exactly when some file part has no top-level `mediaType`.
- **Chat view** (`components/chat.tsx`, module `ChatComponent`).
  - The class `ChatView` holds the input, attachments, messages, edit state and title.
  - Modelled: the submit guard; the shape of the saved user and assistant messages; the title the client proposes (shown equal to the service's for content-bearing first messages); the temporary-id re-sync condition; the local edit.
- **File utilities** (`components/file-utilities.tsx`, module `FileUtilities`). The MIME classifier and the badge colours.
- **Attachment predicate** (`lib/hasAttachments.ts`, module `Attachments`).
- **Memory endpoint** (`app/api/memory/route.ts`, module `MemoryRoute`) and **chats endpoint** (`app/api/chats/route.ts`, module `ChatsRoute`). Their authorisation gates and response projections.

Some behaviour of the code is easy to miss. The model follows the code here,
and lemmas state it:

- `createEnrichedSystemPrompt` appends its usage instruction even when no memory was found. So the prompt is never just the base prompt (`Memory.EnrichedPromptWithoutMemories`).
- `saveEditedMessage` removes the edited message and the one after it from the local list, but keeps everything later. The server drops everything from the edited message on, so the two lists agree only when the edit hits one of the last two messages (`ChatComponent.LocalEditVersusServer`).
- The replacement message of an edit carries only the new text. Attachments of the edited message are not carried over.
- `syncMessageIds` is meant to replace the temporary `user-` id of the last message with a real one, but the chats endpoint's `PATCH` stores the ids the client sends. The list the re-sync fetches therefore still ends with the same temporary id (`ChatComponent.SyncKeepsTemporaryId`).
- `saveUserMessage` stores an attachment as `{ type: 'file', file: {...} }` with no top-level `mediaType`. If such a stored message is sent back to the chat endpoint, its conversion throws and the endpoint answers 500 (`ChatComponent.StoredAttachmentFailsConversion`).
- In `getFileType`, three tests can never decide anything: `officedocument.wordprocessingml`, `spreadsheetml` and `presentationml` each contain a keyword tested earlier (`FileUtilities.LongKeywordsAreRedundant`). Every Office Open XML type, spreadsheets and presentations included, is labelled `document` (`FileUtilities.OfficeTypesAreDocuments`).
- The memory endpoint's `DELETE` reports success even when the memory service failed, because `cleanupOldMemories` swallows its errors.

Inputs from outside the program become parameters of the model:

- the clock (`now`, in milliseconds, or the ISO string of the memory listing);
- generated ids and share tokens (`nanoid`);
- what the memory service returns: `Option<seq<MemoryEntry>>`, where `None` means the call threw;
- whether each delete succeeds: a function from id to bool;
- the messages the server returned to the client, and whether a request succeeded;
- the signed-in user id and the API key.

## Model

| member | source | states |
|---|---|---|
| ChatModels.FindIndex | my-gpt/lib/chatService.ts:41-45 | no index exactly when no message has the id; otherwise the position of the first message with that id |
| ChatStore.TitleOrDefault | my-gpt/lib/chatService.ts:16 | a truthy title is kept, anything else becomes "New Chat" |
| ChatStore.ChatService.CreateChat | my-gpt/lib/chatService.ts:11-26 | the new chat has no messages, is not shared, is titled `title` or "New Chat", and is stored under its id and owner; no other chat changes |
| ChatStore.WithoutIds | my-gpt/lib/chatService.ts:159-162 | keeps exactly the messages whose id is not in the set |
| ChatStore.WithoutIdsAppend | my-gpt/lib/chatService.ts:162 | the filter distributes over concatenation, so the incoming order is kept |
| ChatStore.AppendNewIdempotent | my-gpt/lib/chatService.ts:156-177 | after one append every incoming id is stored, so a second append of the same messages adds nothing |
| ChatStore.AppendNew | my-gpt/lib/chatService.ts:156-170 | the stored messages stay a prefix, and afterwards every stored or incoming id is stored |
| ChatStore.AppendNewUnique | my-gpt/lib/chatService.ts:156-170 | a stored list without duplicate ids stays so when the incoming batch repeats no id |
| ChatStore.AppendNewKeepsRepeats | my-gpt/lib/chatService.ts:159-162 | the filter compares only with the stored ids: a batch `[m, m]` sent to an empty list is stored with both copies |
| ChatStore.UpdateMessages | my-gpt/lib/chatService.ts:137-178 | a missing chat is inserted as "New Chat" holding the messages; otherwise only unseen ids are appended, in order; with nothing new the store is unchanged; no other chat changes |
| ChatStore.LastNewIsLastFresh | my-gpt/lib/chatService.ts:164-174 | after an append, `lastMessageAt` comes from the last incoming message that was new |
| ChatStore.UpdateMessagesIdempotent | my-gpt/lib/chatService.ts:137-178 | repeating `updateChatMessages` with the same messages at any later time changes nothing |
| ChatStore.ChatService.UpdateChatMessages | my-gpt/lib/chatService.ts:137-178 | the store after the call is `UpdateMessages` of the store before |
| ChatStore.RemoveFrom | my-gpt/lib/chatService.ts:28-63 | "Chat not found" or "Message not found" leaves the store unchanged; otherwise the kept messages are exactly those before the first message with the id, and `lastMessageAt` is the last kept timestamp or now |
| ChatStore.ChatService.RemoveMessagesFrom | my-gpt/lib/chatService.ts:28-63 | returns what `RemoveFrom` returns and leaves the store `RemoveFrom` leaves |
| ChatStore.ReplaceFrom | my-gpt/lib/chatService.ts:65-104 | same errors; otherwise the list is the messages before the first occurrence followed by the new message, and `lastMessageAt` is the new message's timestamp or now |
| ChatStore.ChatService.ReplaceMessageAndRemoveAfter | my-gpt/lib/chatService.ts:65-104 | returns what `ReplaceFrom` returns and leaves the store `ReplaceFrom` leaves |
| ChatStore.ReplaceThenRemove | my-gpt/lib/chatService.ts:28-104 | when the replacement keeps the edited id, removing from that id afterwards keeps what removing from it before would have kept |
| ChatStore.SetTitle | my-gpt/lib/chatService.ts:180-192 | only the matching chat changes, in its title and `updatedAt`; no match is a no-op |
| ChatStore.ChatService.UpdateChatTitle | my-gpt/lib/chatService.ts:180-192 | the store after the call is `SetTitle` of the store before |
| ChatStore.Share | my-gpt/lib/chatService.ts:194-211 | the matching chat becomes shared under the new token; nothing else changes |
| ChatStore.ChatService.ShareChat | my-gpt/lib/chatService.ts:194-211 | returns the token whether or not a chat matched, and performs `Share` |
| ChatStore.Unshare | my-gpt/lib/chatService.ts:213-228 | the matching chat loses its token and its shared flag |
| ChatStore.ChatService.UnshareChat | my-gpt/lib/chatService.ts:213-228 | the store after the call is `Unshare` of the store before |
| ChatStore.ShareThenUnshare | my-gpt/lib/chatService.ts:194-228 | after sharing, only the new token finds the chat; after unsharing, that token does not find it either |
| ChatStore.Delete | my-gpt/lib/chatService.ts:230-234 | exactly the matching chat is removed |
| ChatStore.ChatService.DeleteChat | my-gpt/lib/chatService.ts:230-234 | the store after the call is `Delete` of the store before |
| ChatStore.FirstInListing | my-gpt/lib/chatService.ts:109-112 | every non-empty set of chats has one that sorts before all others under `lastMessageAt` desc, then `updatedAt` desc |
| ChatStore.ChatService.GetUserChats | my-gpt/lib/chatService.ts:106-115 | returns exactly the owner's chats, each once, sorted by `lastMessageAt`, then `updatedAt`, newest first, with chats lacking `lastMessageAt` last |
| ChatStore.ChatService.GetChatById | my-gpt/lib/chatService.ts:117-126 | with a truthy owner, the chat under (id, owner) or nothing; without one, some chat with that id exactly when one exists |
| ChatStore.ChatService.GetChatByShareToken | my-gpt/lib/chatService.ts:128-135 | a chat is found exactly when some chat is shared under the token, and the one found is a stored chat shared under that token |
| ChatStore.FirstUserMessage | my-gpt/lib/chatService.ts:237 | nothing exactly when no message is from the user; otherwise the earliest user message |
| ChatStore.GenerateChatTitle | my-gpt/lib/chatService.ts:236-249 | "New Chat" without a user message; otherwise the first user message's content, else its joined text parts, else "New Chat", cut to 50 characters plus "..." |
| ChatStore.GenerateChatTitleFromContent | my-gpt/lib/chatService.ts:240-248 | a first user message with content titles the chat by that content, or by its first 50 characters and "..." when longer |
| Memory.NewManager | my-gpt/lib/memory.ts:20-31 | construction fails exactly when the API key is falsy; the manager keeps the user and a context limit of 20 messages |
| Memory.Classify | my-gpt/lib/memory.ts:97-124 | the bucket of one text: a preference word in the lower-cased text wins, then a fact pattern, else context (`BucketMembers`, the three examples) |
| Memory.AllMemories | my-gpt/lib/memory.ts:85-134 | the three buckets of the fetched memories, or three empty ones when the fetch failed (`BucketsPartition`, `BucketMembers`) |
| Memory.BucketsPartition | my-gpt/lib/memory.ts:97-125 | every memory lands in exactly one bucket: the bucket sizes add up to the number of memories |
| Memory.BucketMembers | my-gpt/lib/memory.ts:97-125 | a bucket holds exactly the texts of the memories classified into it |
| Memory.ClassifyPreferenceExample | my-gpt/lib/memory.ts:102-110 | a text lower-casing to "i like pizza" is a preference |
| Memory.ClassifyFactExample | my-gpt/lib/memory.ts:111-121 | a text lower-casing to "my name is alex" is a fact, since no preference word occurs in it |
| Memory.ClassifyContextExample | my-gpt/lib/memory.ts:122-124 | a text lower-casing to "it rained yesterday" matches no pattern and is context |
| Memory.GetAllMemories | my-gpt/lib/memory.ts:86-135 | the loop fills the three buckets in input order; a failed fetch gives three empty buckets |
| Memory.ManageContextWindow | my-gpt/lib/memory.ts:138-141 | a history of at most 20 messages is returned unchanged |
| Memory.OfRole | my-gpt/lib/memory.ts:144-145 | keeps exactly the messages of the requested kind (system or not) |
| Memory.LastN | my-gpt/lib/memory.ts:148 | `slice(-n)` is the last n messages, or all of a shorter list |
| Memory.ContextWindowShape | my-gpt/lib/memory.ts:143-153 | a longer history becomes every system message, in order, followed by the 20 most recent other messages; nothing longer than the input, and no system message lost |
| Memory.ExtractConversationText | my-gpt/lib/memory.ts:241-253 | the transcript: each message's lines joined by newlines (`TranscriptIsLines`) |
| Memory.TranscriptIsLines | my-gpt/lib/memory.ts:241-253 | when every message yields at least one line, the transcript is all per-part (or per-message) lines of the conversation joined by newlines; a message without text parts adds an empty line instead |
| Memory.StoreMemory | my-gpt/lib/memory.ts:34-62 | a submission is made exactly when the transcript exceeds 100 characters, carrying the transcript, user, conversation id and message count |
| Memory.SingleUserMessageThreshold | my-gpt/lib/memory.ts:34-62 | a lone user message without parts is stored exactly when its content exceeds 94 characters |
| Memory.NonEmptyTexts | my-gpt/lib/memory.ts:72-74 | only non-empty texts remain, never more than the entries |
| Memory.SliceEnd | my-gpt/lib/memory.ts:75 | the end of `slice(0, limit)` never passes the list, and is `limit` when that fits |
| Memory.GetRelevantMemories | my-gpt/lib/memory.ts:65-83 | a failed search gives nothing; otherwise the result is the prefix of the non-empty search texts of length `slice(0, limit)` selects: `min(limit, n)` for a non-negative limit, `max(n + limit, 0)` for a negative one |
| Memory.WithRelevant | my-gpt/lib/memory.ts:162-170 | the prompt is extended, never changed; without a truthy query or without results it is unchanged |
| Memory.WithBullets | my-gpt/lib/memory.ts:175-187 | the prompt is extended, never changed; with an empty bucket it is unchanged |
| Memory.WithBulletsUsesFirstThree | my-gpt/lib/memory.ts:177 | buckets that agree on their first three items give the same prompt |
| Memory.AppendNumbered | my-gpt/lib/memory.ts:166-168 | the loop appends one numbered line per memory, numbered from 1 |
| Memory.AppendBulleted | my-gpt/lib/memory.ts:177-179 | the loop appends one bulleted line per item |
| Memory.CreateEnrichedSystemPrompt | my-gpt/lib/memory.ts:157-196 | the prompt built block by block equals the relevant, preference, fact and instruction blocks appended to the base |
| Memory.EnrichedPrompt | my-gpt/lib/memory.ts:157-191 | the relevant, preference and fact blocks appended to the base prompt, then the instruction (its properties are the three lemmas below) |
| Memory.EnrichedPromptStartsWithBase | my-gpt/lib/memory.ts:159 | the enriched prompt starts with the base prompt |
| Memory.EnrichedPromptEndsWithInstruction | my-gpt/lib/memory.ts:189-191 | the enriched prompt always ends with the usage instruction |
| Memory.EnrichedPromptWithoutMemories | my-gpt/lib/memory.ts:157-191 | with nothing relevant and no preference or fact, the prompt is the base prompt plus the instruction |
| Memory.DeletionAttempts | my-gpt/lib/memory.ts:214-218 | the ids the cleanup loop tries to delete, in order, never more than the memories |
| Memory.SuccessfulDeletions | my-gpt/lib/memory.ts:213-225 | the number of those deletes that succeed (`DeletionCountBounds`) |
| Memory.DeletionCountBounds | my-gpt/lib/memory.ts:213-225 | the count returned never exceeds the deletes attempted, and equals them when every delete succeeds |
| Memory.ZeroDaysDeletesAll | my-gpt/lib/memory.ts:215-216 | with 0 days every memory is attempted, in order, whatever its timestamp |
| Memory.UndatedEntriesKept | my-gpt/lib/memory.ts:217 | with any other number of days, only memories with a timestamp before the cutoff are attempted |
| Memory.CleanupOldMemories | my-gpt/lib/memory.ts:204-234 | the loop attempts exactly the due memories and counts the successful deletes; a failed fetch attempts nothing and returns 0 |
| Memory.LatestTimestamp | my-gpt/lib/memory.ts:269-279 | the `reduce` from the epoch over the memory timestamps (`LatestTimestampIsMax`) |
| Memory.LatestTimestampIsMax | my-gpt/lib/memory.ts:269-279 | the reduce yields the latest timestamp, or the epoch when there is none |
| Memory.GetMemoryStats | my-gpt/lib/memory.ts:256-298 | the total and bucket counts, with `lastUpdated` present exactly when memories exist; all zero when the fetch fails |
| Memory.StatsCountsAddUp | my-gpt/lib/memory.ts:281-286 | when both fetches agree, facts, preferences and context add up to the total |
| ChatRoute.PartContent | my-gpt/app/api/chat/route.ts:20-35 | a file part without `mediaType` throws; a non-empty text gives a text element; an `image/` file gives an image of `url`, else `cdnUrl`; anything else adds nothing |
| ChatRoute.PartsContent | my-gpt/app/api/chat/route.ts:19-46 | the content list `forEach` builds, or the first part's error (`PartsContentSpec`) |
| ChatRoute.PartsContentSpec | my-gpt/app/api/chat/route.ts:19-46 | the parts convert without throwing exactly when no file part lacks `mediaType`; then the content list holds, in order, exactly what each contributing part converts to, and no empty text |
| ChatRoute.Settle | my-gpt/app/api/chat/route.ts:51-61 | an empty list falls back to a truthy `content`, else to ""; a lone text element becomes a plain string; otherwise the list is kept |
| ChatRoute.ModelMessageOf | my-gpt/app/api/chat/route.ts:16-67 | a converted message keeps its role |
| ChatRoute.ModelMessagesOf | my-gpt/app/api/chat/route.ts:16-67 | the model messages of all messages, or the first error (`ModelMessagesOfSpec`) |
| ChatRoute.ModelMessagesOfSpec | my-gpt/app/api/chat/route.ts:16-67 | the map throws exactly when some message throws; otherwise there is one model message per message, in order, with its role |
| ChatRoute.SingleTextCollapses | my-gpt/app/api/chat/route.ts:59-61 | a message whose only part is a non-empty text reaches the model as that string |
| ChatRoute.ConvertMessage | my-gpt/app/api/chat/route.ts:17-66 | the `forEach` loop and the fallbacks compute the specified conversion, or its error |
| ChatRoute.ToModelMessages | my-gpt/app/api/chat/route.ts:16-67 | the outer loop computes the specified conversion of all messages, or the first error |
| ChatRoute.Post | my-gpt/app/api/chat/route.ts:10-93 | 500 with "Failed to process chat request" exactly when the conversion throws; otherwise the model gets one message per input message |
| ChatComponent.GenerateTitleFromMessage | my-gpt/components/chat.tsx:190-193 | content over 50 characters is cut to 50 plus "...", empty content gives "New Chat", otherwise the content |
| ChatComponent.ClientTitleMatchesService | my-gpt/components/chat.tsx:190-193 | for a first user message with content, the client's title equals the service's `generateChatTitle` |
| ChatComponent.StoredFilePart | my-gpt/components/chat.tsx:327-335 | an attachment is stored as a `file` part with a nested file (name, media type, `url` or `cdnUrl`) and no top-level media type |
| ChatComponent.StoredFileParts | my-gpt/components/chat.tsx:327-335 | one stored part per file, in order |
| ChatComponent.FormatUserMessage | my-gpt/components/chat.tsx:316-337 | role user, the given id or `user-` and the clock, content `text` or `content` or ""; the parts are the given ones or one text part of the content, followed by the stored form of each file when files are present |
| ChatComponent.Outgoing | my-gpt/components/chat.tsx:209-214 | one outgoing file per attachment with its media type, name and CDN url |
| ChatComponent.SubmittedMessageShape | my-gpt/components/chat.tsx:205-216 | the saved message has a temporary `user-` id from the clock, the trimmed text as content and as its first part, then the stored form of each attachment in attachment order |
| ChatComponent.SaveUserMessageBody | my-gpt/components/chat.tsx:339-353 | the body holds the fetched messages plus the new one, and a title exactly while the chat is called "New Chat" |
| ChatComponent.StoredAttachmentFailsConversion | my-gpt/components/chat.tsx:327-336 | a saved user message with an attachment makes the chat endpoint's conversion throw |
| ChatComponent.NonEmptyTextParts | my-gpt/components/chat.tsx:151-152 | only non-empty texts of text parts remain |
| ChatComponent.FormatAssistantMessage | my-gpt/components/chat.tsx:144-159 | keeps id and role and stamps the clock; with parts, they are kept and the content is the concatenation of the non-empty text parts; without, one text part of the content, and the content or "" |
| ChatComponent.AssistantContentMatchesRoute | my-gpt/components/chat.tsx:149-153 | the saved assistant content joins exactly the texts the chat endpoint would pass to the model |
| ChatComponent.AssistantContentLength | my-gpt/components/chat.tsx:149-153 | the saved content's length is the sum of the lengths of the non-empty text parts |
| ChatComponent.SubmitAllowed | my-gpt/components/chat.tsx:197-198 | a submit goes ahead when there is trimmed text or an attachment, and nothing is streaming |
| ChatComponent.SubmitData | my-gpt/components/chat.tsx:205-216 | the data `onSubmit` passes on: the trimmed text, no id, and the outgoing files only when something is attached (its shape once saved is `SubmittedMessageShape`) |
| ChatComponent.BlankInputRejected | my-gpt/components/chat.tsx:197-198 | whitespace-only input with no attachment is never submitted |
| ChatComponent.NeedsIdSync | my-gpt/components/chat.tsx:93-98 | the re-sync runs when the list is non-empty and its last message is a user message whose id starts with `user-` |
| ChatComponent.LoadedMessage | my-gpt/components/chat.tsx:71-76 | a stored message is installed with its id, role and content, its parts or else one text part of its content, and no timestamp |
| ChatComponent.LoadedMessages | my-gpt/components/chat.tsx:107-112 | one installed message per stored message, in order |
| ChatComponent.LoadedKeepsSyncCondition | my-gpt/components/chat.tsx:93-115 | the installed list meets the re-sync condition exactly when the server's list does |
| ChatComponent.SyncKeepsTemporaryId | my-gpt/components/chat.tsx:91-115 | after `saveUserMessage` stored a message that had no id, the list the re-sync installs still ends with that message's temporary `user-` id and still meets the re-sync condition |
| ChatComponent.EditSlice | my-gpt/components/chat.tsx:278-280 | the local list keeps the messages before the edited one and drops two messages, or all remaining ones near the end |
| ChatComponent.LocalEditVersusServer | my-gpt/components/chat.tsx:278-280 | the local list equals the server's list minus the replacement exactly when the edit is one of the last two messages; otherwise the client also keeps the later messages |
| ChatComponent.ChatView.constructor | my-gpt/components/chat.tsx:22-27 | empty input, no attachments, no messages, not editing, empty title |
| ChatComponent.ChatView.HandleFileUpload | my-gpt/components/chat.tsx:296-298 | the file joins the end of the attachments; nothing else changes |
| ChatComponent.ChatView.StartEditingMessage | my-gpt/components/chat.tsx:240-243 | enters edit mode for the message with its text; nothing else changes |
| ChatComponent.ChatView.CancelEditing | my-gpt/components/chat.tsx:245-248 | leaves edit mode and clears the edit text; nothing else changes |
| ChatComponent.ChatView.OnSubmit | my-gpt/components/chat.tsx:195-218 | a refused submit changes nothing; otherwise input and attachments are cleared and the save body for the trimmed text and attachments is sent |
| ChatComponent.ChatView.SaveEditedMessage | my-gpt/components/chat.tsx:250-283 | blank text or an unknown id does nothing; otherwise the trimmed text is sent, and only a successful request changes the local list and leaves edit mode |
| FileUtilities.GetFileType | my-gpt/components/file-utilities.tsx:4-30 | the label is always one of the eleven labels |
| FileUtilities.FileIffNoKeyword | my-gpt/components/file-utilities.tsx:4-30 | a type is labelled `file` exactly when it has none of the prefixes and none of the keywords |
| FileUtilities.LongKeywordsAreRedundant | my-gpt/components/file-utilities.tsx:9-18 | dropping the three long Office keywords never changes a label |
| FileUtilities.MediaPrefixesWin | my-gpt/components/file-utilities.tsx:5-8 | `image/`, `video/` and `audio/` decide the label first, then any `pdf` |
| FileUtilities.OfficeTypesAreDocuments | my-gpt/components/file-utilities.tsx:9-18 | any type mentioning `officedocument`, with no media prefix and no `pdf`, is a `document` |
| FileUtilities.TextPrefixBeforeCode | my-gpt/components/file-utilities.tsx:19-26 | a `text/` type without the earlier keywords is `text`, even when it names a code language |
| FileUtilities.TextHtmlIsText | my-gpt/components/file-utilities.tsx:19-26 | `text/html` is labelled `text`, not `code` |
| FileUtilities.GetFileColor | my-gpt/components/file-utilities.tsx:61-86 | the badge classes of each of the ten coloured labels, and the default classes for anything else (`DefaultColorIsText`) |
| FileUtilities.DefaultColorIsText | my-gpt/components/file-utilities.tsx:77-84 | the default classes are the `text` classes, worn exactly by `text`, `file` and unknown labels |
| Attachments.FileParts | my-gpt/lib/hasAttachments.ts:7 | the filter keeps only file parts from the list, never more than it has |
| Attachments.FilePartsNonEmptyIff | my-gpt/lib/hasAttachments.ts:7-8 | the filter keeps something exactly when some part is typed `file` or carries a file |
| Attachments.HasAttachments | my-gpt/lib/hasAttachments.ts:1-12 | a non-empty `files` array means true; without one and without parts, false |
| Attachments.PartsDecide | my-gpt/lib/hasAttachments.ts:6-9 | with `files` missing, empty or not an array, the parts decide: true exactly when some part is a file part |
| Attachments.SavedUserMessageAttachments | my-gpt/lib/hasAttachments.ts:1-12 | a user message saved by the chat view has attachments exactly when files were attached |
| MemoryRoute.Tagged | my-gpt/app/api/memory/route.ts:29-48 | one item per memory, in order, with id prefix plus index, the bucket's type and the stamp |
| MemoryRoute.MemoryList | my-gpt/app/api/memory/route.ts:29-48 | the tagged facts, then preferences, then context (`MemoryListLayout`, `ListingCountsEveryEntry`) |
| MemoryRoute.MemoryListLayout | my-gpt/app/api/memory/route.ts:29-48 | facts first, then preferences, then context, each numbered from 0 within its bucket and typed after it |
| MemoryRoute.ListingCountsEveryEntry | my-gpt/app/api/memory/route.ts:50-53 | the list is exactly as long as the number of memories the service returned |
| MemoryRoute.Get | my-gpt/app/api/memory/route.ts:7-62 | 401 without a user, even without an API key; 500 without an API key; otherwise the listing with `total` equal to its length and to the number of memories |
| MemoryRoute.Delete | my-gpt/app/api/memory/route.ts:64-98 | 401 without a user; 500 without an API key; otherwise every fetched memory is deleted in order and success is reported whatever the outcome |
| ChatsRoute.Summaries | my-gpt/app/api/chats/route.ts:18-28 | one summary per chat, in order, carrying its id, title, sharing flag and token, and three dates, with `messageCount` equal to its number of messages |
| ChatsRoute.Get | my-gpt/app/api/chats/route.ts:7-34 | 401 exactly without a user; otherwise the summaries of exactly the user's chats, each once, in listing order |
| ChatsRoute.Post | my-gpt/app/api/chats/route.ts:36-52 | 401 without a user and 500 for an unreadable body, both with the store unchanged; otherwise the chat `createChat` stored |
| ChatsRoute.UntitledChatIsNewChat | my-gpt/app/api/chats/route.ts:44-47 | a chat created without a title is called "New Chat" and has no messages |

## Left out

- Database and network failures are not modelled. The MongoDB calls, `fetch`, and the memory service's `add`, `search`, `getAll` and `delete` cannot fail in the model, except where a failed result is a parameter. So the 500 answers of the chats endpoint for a database error, and the thrown "Failed to save" errors of the chat view, are not modelled.
- Concurrency is not modelled. The handlers' `await` points and interleaved requests are left out. Each operation is modelled as atomic on the store, and the chat view's React state updates as immediate.
- `nanoid` uniqueness is assumed: the `CreateChat` precondition says the new id is unused. MongoDB could hold two documents with the same id and owner; the map-based store cannot.
- `getUserChats` breaks ties between chats with equal dates in some order; the model allows any such order. `findOne` without an owner, or by share token, may return any matching chat.
- String lengths are counted in code points, not JavaScript's UTF-16 units. `toLowerCase` is modelled for ASCII letters only.
- Dates are integers (milliseconds). `cleanupOldMemories` moves the cutoff by calendar days with `setDate`; the model subtracts whole 24-hour days, ignoring daylight-saving changes. ISO date formatting is a string parameter.
- `Memory.CreateEnrichedSystemPrompt` does not model the `catch` that returns the base prompt. The memory calls in the model swallow their own errors, so nothing inside can throw.
- The chat endpoint's language-model call (`streamText`) and streamed answer are not modelled, and neither is the chat view's `sendMessage`. `ChatRoute.Post` ends at the converted messages. A request body without a `messages` array is not modelled.
- `onFinish`, `loadChat` and `syncMessageIds` are modelled only by the re-sync condition (`ChatComponent.NeedsIdSync`) and the list they install (`ChatComponent.LoadedMessages`). Their `fetch` calls, the 100 ms timer, the loading flag and the title `loadChat` sets are not modelled.
- `getFileIcon` (JSX components) and `formatFileSize` (floating-point `Math.log` and `toFixed`) are not modelled.
- `hasAttachments` is modelled for a message that exists. Called with `null` or `undefined`, it throws on `message.parts`.
- MemoryRoute.Tagged: one `stamp` parameter stands for the timestamps of all listed items. The handler reads the clock (`new Date().toISOString()`) once per item, so items listed in the same request could carry different instants.
- Authentication (`getAuth`) is a parameter: the signed-in user id, or none. Logging is left out.
