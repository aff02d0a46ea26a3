# Chat client core, modelled in Dafny

This project models the deterministic logic of a browser chat client. The
client proxies messages to a hosted language-model API, keeps each user's
conversations in a document store and shows them in a sidebar. Twelve
modules cover it:

- `ChatService` (`src/services/chatService.ts`) derives the title of a new
  conversation and runs the case-insensitive search. It sorts conversations
  into four date buckets, keeps the message list and `messageCount` of
  `createChat` and `addMessage` in step, and sorts the list newest first.
  One user's store is a `map` from document id to conversation. All times
  are integer milliseconds, passed in.
- `ChatRoute` (`src/app/api/chat/route.ts`) models the `POST` handler as a
  pure function of four inputs: whether a session exists, the parsed body
  (or the parse error), what the upstream call answered, and the index the
  random generic-template pick chose. It checks authentication first, then
  the blank message. It applies the default model, builds the upstream
  message list and picks the reply. When upstream answers with a non-OK
  status it uses the keyword-priority canned responder.
- `Translations` (`src/hooks/useTranslations.ts`) models `t`: a loop that
  walks a dotted key through the message tree, the echo of a missing key,
  and the `{{name}}` substitution. That substitution folds
  `String.prototype.replace` over the parameters, and includes the `$`
  patterns of `replace`.
- `ImgbbUpload` (`src/utils/imgbbUpload.ts`) models the 32 MiB size check
  and the extension whitelist, over Node's POSIX `path.extname` rule.
- `I18n` (`src/lib/i18n.ts`) models the two locales and browser-language
  detection.
- `ChatList`, `ChatItem` and `ChatInterface` (`src/components/*.tsx`)
  model component state as classes whose methods are the event handlers.
  `ChatList` covers the list updates after delete and rename, and what the
  list area shows. `ChatItem` covers the menu and rename-editor toggles.
  `ChatInterface` covers the send discipline and `startNewChat`.
- `Strings`, `Seqs`, `ChatTypes` and `Wrappers` hold the shared pieces:
  - the JavaScript string operations the core uses: `trim`, `toLowerCase`,
    `includes`/`indexOf` and `split`, plus a prefix test used only in
    contracts;
  - order-preserving filtering;
  - the `Message`/`ChatHistory`/`DateGroup` records;
  - `Option` and `Result`.

In the chat endpoint, every non-OK upstream status goes to the canned
responder, and an exception inside the handler answers 500 with an `error`
body.

## Model

| member | source | states |
|---|---|---|
| `ChatService.GenerateChatTitle` | src/services/chatService.ts:186-206 | The title depends on the trimmed first message. 1 to 50 characters: exactly that text. Longer: its first 47 characters followed by `...`. Empty: `Yeni Sohbet`. |
| `ChatService.TitleShape` | src/services/chatService.ts:189-199 | Any title the rule allows is non-empty, not blank, and at most 50 characters long. |
| `ChatService.CreateChat` | src/services/chatService.ts:26-54 | Adds exactly one document, under the new id, and leaves every other document unchanged. The new chat holds `[firstMessage]` with count 1 and both timestamps set to now. Its title follows the title rule, and the store stays consistent. |
| `ChatService.AddMessage` | src/services/chatService.ts:57-80 | Fails with `Chat bulunamadı` exactly when the chat is missing. Otherwise it appends the message at the end, sets `messageCount` to the new length and `updatedAt` to now. No other field and no other chat changes. |
| `ChatService.AddMessageKeepsConsistent` | src/services/chatService.ts:67-73 | After an append, every chat's count still equals its number of messages. |
| `ChatService.SortNewestFirst` | src/services/chatService.ts:97 | The in-place sort leaves the array ordered by non-increasing `updatedAt`, as a permutation of the old contents. |
| `ChatService.InsertNewest` | src/services/chatService.ts:97 | One insertion step extends the newest-first prefix by one cell and keeps the contents as a permutation. |
| `ChatService.GetUserChats` | src/services/chatService.ts:83-105 | Returns every fetched document, each as often as fetched, newest first. |
| `ChatService.Bucket` | src/services/chatService.ts:171-178 | A chat is in today's bucket exactly when updated at or after midnight, and in the older bucket exactly when updated before midnight minus seven days; `BucketIntervals` gives all four intervals. |
| `ChatService.BucketIntervals` | src/services/chatService.ts:156-159 | Each bucket is one time interval. Today is from midnight on. Yesterday is the 24 hours before it. Last 7 days is the six days before that. Older is everything earlier. |
| `ChatService.BucketMonotone` | src/services/chatService.ts:171-179 | A more recently updated chat never lands in a later bucket. |
| `ChatService.GroupChatsByDate` | src/services/chatService.ts:155-183 | The loop that pushes each chat onto its bucket returns, for each bucket, the input filtered to that bucket. |
| `ChatService.GroupedSnoc` | src/services/chatService.ts:168-180 | One more input chat goes to the end of its own bucket and changes no other bucket. |
| `ChatService.GroupingPartition` | src/services/chatService.ts:161-180 | Taken together, the four buckets hold every input chat exactly as often as the input does. |
| `ChatService.GroupSizes` | src/services/chatService.ts:161-180 | The bucket sizes add up to the number of chats. |
| `ChatService.GroupMembership` | src/services/chatService.ts:168-180 | A chat is in a bucket exactly when it is in the input and that bucket is its own. Each bucket is a subsequence of the input, in input order. |
| `ChatService.SearchChats` | src/services/chatService.ts:209-219 | A blank term returns the list unchanged. Otherwise the result is exactly the chats whose lowered title or some lowered message contains the lowered term. Each matching chat is kept as often as it occurs, and the result is an order-preserving subsequence. |
| `ChatRoute.BuildMessages` | src/app/api/chat/route.ts:25-41 | The upstream list has length history + 2. It holds the system preamble first, then every history role and content in order, then the user turn with the message. |
| `ChatRoute.PickReply` | src/app/api/chat/route.ts:68-69 | The reply is never empty. A present, non-empty first-choice content is the reply. A missing or empty one gives `Bir hata oluştu, tekrar dener misin? 😅`. |
| `ChatRoute.Post` | src/app/api/chat/route.ts:4-82 | Without a session: 401 and no upstream call. An unreadable body: 500 and no upstream call. An upstream call is made exactly when there is a session, the body parses, the message is present and not blank, and a history is given. A session, a parsed body and a non-blank message without a history is 500 with the error of `history.map` on `undefined`. The lemmas below state the other responses. |
| `ChatRoute.Answer` | src/app/api/chat/route.ts:61-80 | Once the upstream call is made, the status is 200 or 500. It is 200 exactly when the body is a message, and that message is never empty. It is 500 exactly when the call threw. |
| `ChatRoute.UnauthenticatedRejected` | src/app/api/chat/route.ts:6-13 | Without a session the answer is 401 with the login error, whatever the body, and nothing is sent upstream. |
| `ChatRoute.BlankMessageRejected` | src/app/api/chat/route.ts:15-22 | A missing or whitespace-only message is answered with 400 and the blank-message error, and nothing is sent upstream. |
| `ChatRoute.UpstreamRequestShape` | src/app/api/chat/route.ts:15-59 | A valid body causes one upstream request. It goes to the requested model, or `gpt-4o` when none is given, with the preamble first, the history in order and the message last. |
| `ChatRoute.ReplySelection` | src/app/api/chat/route.ts:61-80 | On OK the answer is 200 with the first choice's content or the default text. On any non-OK status it is 200 with the canned reply. When the call threw it is 500. |
| `ChatRoute.ResponsesAreWellFormed` | src/app/api/chat/route.ts:4-82 | Every outcome is 200, 400, 401 or 500. A 200 always carries a non-empty message and only follows an upstream call. |
| `ChatRoute.AnyKeywordMeansSome` | src/app/api/chat/route.ts:92 | A chain of `includes` tests joined by `\|\|` holds exactly when some keyword of the group occurs in the lowered message. |
| `ChatRoute.TopicOf` | src/app/api/chat/route.ts:91-210 | A generic template, the one with index `pick`, is chosen exactly when no keyword group matches; `TopicFollowsKeywordOrder` states the order of the groups. |
| `ChatRoute.TopicFollowsKeywordOrder` | src/app/api/chat/route.ts:91-210 | The groups are tried in a fixed order: programming language, drawing, code, greeting, how-are-you, help. The topic is that of the first group with a keyword in the message. A generic template is used only when no group matches. |
| `ChatRoute.CannedReply` | src/app/api/chat/route.ts:85-211 | Every canned reply starts with the `**Şu anda: <model> modelini simüle ediyorum** 🤖` line, followed by the text of the message's topic. |
| `Translations.WalkAppend` | src/hooks/useTranslations.ts:44-50 | Walking the segments `a + b` is walking `a`, then `b` from where that ended. A missing segment stops the walk for good. |
| `Translations.WalkStep` | src/hooks/useTranslations.ts:47-50 | Each further segment descends exactly one level, or ends the walk when it is missing. |
| `Translations.Translate` | src/hooks/useTranslations.ts:43-65 | The loop over the key's segments returns the stored string, with the parameters substituted when given. A key that does not end on a string is returned itself. |
| `Translations.MissingKeyEchoed` | src/hooks/useTranslations.ts:52-55 | A key whose walk does not end on a string comes back unchanged, with or without parameters. |
| `Translations.StoredStringReturned` | src/hooks/useTranslations.ts:57-64 | Without parameters, or with none listed, the stored string is returned unchanged. |
| `Translations.UndottedKeyIsOneSegment` | src/hooks/useTranslations.ts:44 | A key without a dot is a single segment. |
| `Translations.SplitDotted` | src/hooks/useTranslations.ts:44 | `a.b` with dot-free parts splits into exactly `[a, b]`. |
| `Translations.DottedKeyWalk` | src/hooks/useTranslations.ts:44-50 | `a.b` looks up child `b` of child `a` and is undefined when either is missing. |
| `Translations.ExpandVerbatim` | src/hooks/useTranslations.ts:60 | A replacement text without `$` is inserted as it is. |
| `Translations.ReplaceFirstAt` | src/hooks/useTranslations.ts:60 | `replace` with a string pattern rewrites only the first occurrence and keeps the text before and after it. |
| `Translations.ReplaceFirstAbsent` | src/hooks/useTranslations.ts:60 | Without an occurrence of the pattern, `replace` returns the string unchanged. |
| `Translations.SubstituteSingle` | src/hooks/useTranslations.ts:59-61 | With one parameter, the fold is a single `replace` of its placeholder. |
| `Translations.SubstituteOne` | src/hooks/useTranslations.ts:57-62 | A parameter whose value has no `$` replaces the first `{{name}}` with the value, and the rest of the string is unchanged. |
| `Translations.SubstituteAllWithoutPlaceholders` | src/hooks/useTranslations.ts:57-62 | Parameters whose placeholders do not occur leave the string unchanged. |
| `ImgbbUpload.CheckImageSize` | src/utils/imgbbUpload.ts:84-87 | Accepts exactly the buffers of at most 33,554,432 bytes. |
| `ImgbbUpload.ImageSizeBoundary` | src/utils/imgbbUpload.ts:84-87 | Exactly 32 MiB is accepted; one byte more is refused. |
| `ImgbbUpload.BaseName` | src/utils/imgbbUpload.ts:92 | The last path component, with trailing slashes ignored, contains no slash. |
| `ImgbbUpload.ExtName` | src/utils/imgbbUpload.ts:92 | The extension is either empty, or a dot followed by neither dots nor slashes. |
| `ImgbbUpload.SupportedFormatsShape` | src/utils/imgbbUpload.ts:91 | Every whitelisted extension is a dot followed by at least three lower-case letters. |
| `ImgbbUpload.CheckImageFormat` | src/utils/imgbbUpload.ts:90-93 | A name with an empty extension is refused. An accepted name has an extension of a dot and at least three more characters, none a dot. The lemmas below decide the whitelist cases. |
| `ImgbbUpload.ExtNameOfStemAndExtension` | src/utils/imgbbUpload.ts:92 | A non-empty stem followed by a dot and a dot-free, slash-free tail has exactly that dot and tail as its extension. |
| `ImgbbUpload.StemWithSupportedExtensionAccepted` | src/utils/imgbbUpload.ts:90-93 | A stem followed by an extension that lowers to a whitelisted one, in any letter case, is accepted. |
| `ImgbbUpload.UnsupportedExtensionRejected` | src/utils/imgbbUpload.ts:90-93 | A stem followed by an extension that does not lower to a whitelisted one is refused. |
| `ImgbbUpload.NoDotRejected` | src/utils/imgbbUpload.ts:92 | A name without a dot has an empty extension and is refused. |
| `ImgbbUpload.HiddenFileRejected` | src/utils/imgbbUpload.ts:92 | A base name whose only dot is its first character, such as `.png`, has no extension and is refused. |
| `ImgbbUpload.NoExtensionRejected` | src/utils/imgbbUpload.ts:90-93 | A name whose extension is empty is refused. |
| `ImgbbUpload.UpperCaseExtensionAccepted` | src/utils/imgbbUpload.ts:92 | `<stem>.PNG` is accepted. |
| `ImgbbUpload.LastDotCounts` | src/utils/imgbbUpload.ts:92 | `<stem>.tar.png` is accepted: only the last dot counts. |
| `ImgbbUpload.InnerExtensionIgnored` | src/utils/imgbbUpload.ts:92 | `<stem>.png.tar` is refused. |
| `I18n.DetectBrowserLanguage` | src/lib/i18n.ts:7-12 | The result is always `en` or `tr`, and `tr` without a browser window. It is `en` exactly when the language is `en` or starts with `en-`. |
| `I18n.PrimarySubtag` | src/lib/i18n.ts:10 | The text before the first `-` equals a dash-free tag exactly when the language is that tag, or starts with the tag and a dash. |
| `I18n.UpperCaseFallsBack` | src/lib/i18n.ts:11 | `EN` or `EN-US` falls back to `tr`: the comparison is case-sensitive. |
| `I18n.TurkishDetected` | src/lib/i18n.ts:10-11 | `tr` or `tr-…` gives `tr`. |
| `ChatList.WithoutChat` | src/components/ChatList.tsx:57 | No chat with the id remains. Every other chat remains, as often as it occurred, and the result is an order-preserving subsequence. |
| `ChatList.RenameIn` | src/components/ChatList.tsx:74-78 | The length is kept. Chats with the id get the new title and nothing else changes in them. All other chats are unchanged. |
| `ChatList.ChatListState.constructor` | src/components/ChatList.tsx:21-23 | The list starts empty and loading, with an empty search term. |
| `ChatList.ChatListState.LoadChats` | src/components/ChatList.tsx:25-35 | The fetched list replaces the old one. When the fetch throws, the old list is kept. Loading is false afterwards. |
| `ChatList.ChatListState.SetSelectedChatId` | src/components/ChatList.tsx:14-18 | A new `selectedChatId` prop replaces the selection, and the list, the search term and loading keep their values. |
| `ChatList.ChatListState.HandleDeleteChat` | src/components/ChatList.tsx:52-66 | The chat is removed only with a session email and a store delete that returned. Otherwise the list is unchanged. `onNewChat` fires exactly when the removed chat is the currently selected one. The selection itself does not change. |
| `ChatList.SelectThenDelete` | src/components/ChatList.tsx:52-62 | Selecting a chat on an existing list and then deleting that chat, signed in, fires `onNewChat`. |
| `ChatList.ChatListState.HandleRenameChat` | src/components/ChatList.tsx:69-82 | With a session email and a store update that returned, only the matching chat's title changes. Otherwise the list is unchanged. |
| `ChatList.ChatListState.View` | src/components/ChatList.tsx:84-163 | Without a session the login prompt shows, and while loading the spinner. Otherwise it shows the area for `searchChats(chats, searchTerm)`. |
| `ChatList.Results` | src/components/ChatList.tsx:152-162 | An empty search result shows the empty state: "no search results" exactly when the term is non-empty, "no chats" otherwise. A non-empty result shows the four buckets of `groupChatsByDate`, and at least one of them is non-empty. |
| `ChatList.SomeBucketNonEmpty` | src/components/ChatList.tsx:152-162 | A non-empty list puts at least one chat into some bucket. |
| `ChatList.DeletedChatNotShown` | src/components/ChatList.tsx:52-86 | After a delete, the deleted chat appears in no bucket, whatever the search term. |
| `ChatList.RenameKeepsIds` | src/components/ChatList.tsx:74-78 | Renaming keeps every chat's id at its position. |
| `ChatItem.RenameRequest` | src/components/ChatItem.tsx:20-23 | `onRename` is called exactly when the edited text is not blank and differs from the title. It receives the trimmed text, which has no leading or trailing space. |
| `ChatItem.PaddedTitleRenamesToItself` | src/components/ChatItem.tsx:21-22 | An edit that only adds a leading space still calls `onRename`, with the unchanged title. |
| `ChatItem.ChatItemState.constructor` | src/components/ChatItem.tsx:16-18 | The menu and the editor start closed, and the edited text is the title. |
| `ChatItem.ChatItemState.HandleRename` | src/components/ChatItem.tsx:20-26 | Renames as `RenameRequest` says, then closes both the editor and the menu. |
| `ChatItem.ChatItemState.HandleCancelEdit` | src/components/ChatItem.tsx:28-32 | Restores the title into the editor, closes both, and never renames. |
| `ChatItem.ChatItemState.HandleKeyPress` | src/components/ChatItem.tsx:34-40 | Enter renames, Escape cancels, and any other key changes nothing. |
| `ChatItem.ChatItemState.ToggleMenu` | src/components/ChatItem.tsx:101-104 | The menu button flips the menu and leaves the editor alone. |
| `ChatItem.ChatItemState.ChooseEdit` | src/components/ChatItem.tsx:114-118 | Choosing edit opens the editor and closes the menu. |
| `ChatItem.ChatItemState.ChooseDelete` | src/components/ChatItem.tsx:125-129 | Choosing delete requests the delete and closes the menu. |
| `ChatItem.ChatItemState.EditText` | src/components/ChatItem.tsx:62 | Typing replaces the edited text while the editor stays open. |
| `ChatItem.ChatItemState.SetTitle` | src/components/ChatItem.tsx:15-18 | A new `chat.title` prop replaces the title. The edited text, which is state initialised once, keeps its value, so a later cancel restores the new title. |
| `ChatInterface.DecimalString` | src/components/ChatInterface.tsx:35 | A message id, `Date.now().toString()`, is a non-empty string of decimal digits without a leading zero. |
| `ChatInterface.DecimalRoundTrip` | src/components/ChatInterface.tsx:34-63 | Reading the id back gives the clock value. |
| `ChatInterface.DistinctIds` | src/components/ChatInterface.tsx:34-63 | Different clock values give different ids. |
| `ChatInterface.ReplyText` | src/components/ChatInterface.tsx:58-77 | The assistant message holds the reply, or the fixed error text when the request failed. |
| `ChatInterface.OutcomeOf` | src/components/ChatInterface.tsx:58-64 | A response counts as a reply exactly when its status is 2xx and it carries a message, and the reply is that message. |
| `ChatInterface.ChatInterfaceState.constructor` | src/components/ChatInterface.tsx:17-20 | The state starts with no messages, empty input, not loading, and model `gpt-4o`. |
| `ChatInterface.ChatInterfaceState.SendMessage` | src/components/ChatInterface.tsx:31-81 | With a blank input, or while loading, nothing changes and nothing is sent. Otherwise the request carries the untrimmed input, the model and the earlier messages. Exactly one user message with the input and then one assistant message (the reply or the error text) are appended. The input is cleared and loading ends. |
| `ChatInterface.ChatInterfaceState.HandleKeyPress` | src/components/ChatInterface.tsx:83-88 | Enter without Shift does what `SendMessage` does: nothing for a blank input or while loading, otherwise the same request, the same two appended messages, a cleared input and loading ended. Any other key changes nothing. |
| `ChatInterface.ChatInterfaceState.StartNewChat` | src/components/ChatInterface.tsx:90-92 | Empties the message list and changes nothing else. |
| `ChatInterface.SentHistoryReachesUpstream` | src/components/ChatInterface.tsx:46-56 | A request from the screen reaches the upstream call with the selected model, the preamble, every earlier message's role and content in order, and the input last. |
| `ChatInterface.AssistantMessageNonEmpty` | src/components/ChatInterface.tsx:58-77 | Whatever the endpoint answers, the appended assistant message is non-empty. |
| `ChatInterface.SignedOutShowsErrorText` | src/components/ChatInterface.tsx:70-77 | Signed out, the screen appends the error text and nothing is sent upstream. |
| `Strings.Trim` | src/services/chatService.ts:189 | The result is a contiguous part of the input, and everything before and after it is whitespace. It is empty exactly for blank input, and otherwise starts and ends with a non-space. |
| `Strings.Lower` | src/services/chatService.ts:212 | `toLowerCase` keeps the length and lowers each character. |
| `Strings.IndexOf` | src/hooks/useTranslations.ts:60 | Finds the first occurrence of the pattern, or reports that there is none. |
| `Strings.Split` | src/lib/i18n.ts:10 | The first part is the longest prefix without the separator. When anything follows it, the next character is the separator. |
| `Strings.SplitJoin` | src/hooks/useTranslations.ts:44 | Joining the parts with the separator gives the string back, and no part contains the separator. |
| `Seqs.Filter` | src/services/chatService.ts:213 | Keeps exactly the elements that satisfy the predicate, each as often as it occurs, in order. |

## Left out

- Firestore access is not part of this model: `addDoc`, `getDoc`, `getDocs`, `updateDoc`, `deleteDoc`, and the `getChat`, `deleteChat` and `updateChatTitle` methods that only wrap them. The store is a map; whether a store call returned or threw is an input to the component handlers.
- `Timestamp.now()`, `new Date()`, `Date.now()` and today's local midnight are parameters. Time zones and calendar arithmetic are not modelled.
- `ChatService.CreateChat` reads the clock once, as `now`, for both `createdAt` and `updatedAt`; the source calls `Timestamp.now()` twice, so the two may differ by a few milliseconds there. Likewise `ChatInterface.ChatInterfaceState.SendMessage` uses one `sentAt` (and one `repliedAt`) for a message's id and its timestamp, where the source reads `Date.now()` and `new Date()` separately.
- The `fetch` to the inference endpoint, `getServerSession`, `request.json()` and the `OPTIONS` CORS handler are left out. Their results (session present, parsed body or parse error, upstream answer) are inputs of `ChatRoute.Post`.
- `ChatRoute.Post`: body fields of the wrong JSON type, such as a numeric `message` whose `trim` would throw, are not modelled. The body's fields are optional strings and an optional message list.
- `Math.random` in the generic-template pick is the parameter `pick` in [0, 4).
- `ChatRoute.CannedReply` states its text as the model line followed by the topic text, which is built from constants holding the literal template texts. No lemma is stated about the wording of each template.
- `uploadToImgBB` (temporary files, HTTP upload, cleanup) is I/O and is not part of this model.
- `loadMessages` in the translation hook (dynamic import, `localStorage`) and the hook's `locale`/`isLoading` state are left out. The message tree is an input.
- `Translations.Translate`: a walk through a string that indexes one of its characters or properties (`"abc"?.["0"]`) is treated as a missing segment. So is a segment that names an inherited property of the JavaScript prototype chain: the key `constructor.name` yields the string `Object` in the source, but is echoed back by the model.
- `Translations.Translate`: numeric parameter values and `String()` on them, and the order in which `Object.entries` lists integer-like keys, are not modelled. Parameters are a sequence of string pairs in entry order.
- `Strings.Lower` lowers ASCII, Latin-1 and the Turkish `Ğ` and `Ş` one code point at a time. The rest of Unicode case mapping is not modelled, including `İ`, which lowers to two code units.
- `ChatService.GenerateChatTitle` counts lengths in code points, while JavaScript counts UTF-16 code units. The two differ for characters outside the Basic Multilingual Plane, such as emoji.
- `ChatService.SortNewestFirst` and `ChatService.GetUserChats` do not state that chats with equal `updatedAt` keep their fetched order (the stability of `Array.prototype.sort`). They state order and permutation only.
- `ChatInterface.OutcomeOf` treats a 2xx response without a `message` field as a failure; the screen itself would append an undefined content. The chat endpoint never sends such a response (`ChatRoute.ResponsesAreWellFormed`).
- `ChatInterface.ChatInterfaceState.SendMessage` runs the awaited request as one sequential step, with its outcome as an input. React's batching of `setState` updaters, double submission across renders, `onBlur` and scrolling are not modelled.
- The trivial setters (`setSearchTerm`, `setInput`, `setSelectedModel`) are not modelled, beyond `ChatItem.ChatItemState.EditText` for the rename editor.
- `ModelSelector.tsx`, `LanguageSelector.tsx`, `MessageContent.tsx`, `ThemeToggle.tsx` and `page.tsx` are pure UI, storage or page reloads, and are not part of this model.
