# YouTube chatbot: a verified model of its core

The system lets a viewer ask questions about the YouTube video they are
watching. A browser extension notices the video on the page and talks to a
backend. The backend loads the transcript, cuts it into chunks, stores their
embeddings in a hosted vector index (one namespace per video) and answers
questions by retrieval plus a language model.

This project models the sequential logic around those hosted services. The
hosted services are inputs: the transcript loader, the text splitter, the
vector index, the language model, `fetch`, the clock and the extension's
local storage.

- `common.dfy` (`Common`) holds the shared pieces:
  - optional values and `Remote<T>`, the outcome of an awaited call that either returns or throws a message;
  - JavaScript truthiness of strings;
  - substring tests.
- `patterns.dfy` (`Patterns`) models the one regular-expression shape the code uses to pull an id out of text, an unanchored `(?:m1|m2)([^stops]+)`. It models the expression's leftmost, alternative-ordered, greedy capture, and proves lemmas that characterise the match.
- `youtube.dfy` (`YouTube`) models the backend's YouTube service:
  - `extractVideoId` with both patterns, tried in order;
  - the transcript fetch and the rewriting of the loader's error messages;
  - the video-information fetch.
- `vector_store.dfy` (`VectorStore`) models the vector-store service as a class. It holds two things:
  - the in-memory cache from video id to store handle, a `map` to handle objects;
  - the hosted index, reduced to what the service reads from it: per namespace, its vector count, plus the listing order and the dimension.
  
  Every per-video operation addresses namespace `"video_" + id`.
- `chatbot.dfy` (`Chatbot`) models the four HTTP routes.
  - Each route is a pure function. It maps the request and what each collaborator settles to onto a status code, a JSON body and the trace of collaborator calls.
  - The class `ChatbotRouter` drives the stateful vector-store service and is proved to answer exactly as those functions do.
- `background.dfy` (`Background`) models the extension's background worker as a class with two fields:
  - `currentVideoData`;
  - a `map` standing for the extension's local key-value storage, which holds `currentVideo`, `chatRequest`, `processed_<id>` and `chat_<id>`.
  
  It also models message dispatch, video processing, chat with history, and the status check.
- `content_script.dfy` (`ContentScript`) models the content script:
  - id extraction from the query string or the path;
  - the change detector that sends one `VIDEO_CHANGED` per real change. It is a class holding `currentVideoId`, `lastKnownVideoId`, the observer's `lastUrl` and the notices sent so far;
  - its message handler and `isVideoPage`.

In three places the intended behaviour and the code differ; the model follows the code:

- `/video-status` is meant to report a boolean. The code reports whatever `vectorStoreExists` returns. For a namespace absent from the index that is `undefined`, so `processed` is `Option<bool>` and `None` stands for `undefined`.
- Reprocessing a video is meant to overwrite its vectors without growing the count. `createVectorStore` passes no document ids, so every chunk gets a fresh id. `NamespaceIndex.Upsert` therefore adds the chunk count to the namespace's count.
- Chat history is meant to be append-only. That holds only while storage can be read. `getChatHistory` answers `[]` when the read fails. The following save then replaces the stored history with the new exchange alone. `SendChatMessage` states exactly this.

## Model

| member | source | states |
|---|---|---|
| Patterns.RunLength | backend/services/youtube.js:8 | the greedy `[^stops]+` run starting at an index is maximal: every character in it is allowed, and it ends at the end of the text or at a stop character |
| Patterns.CaptureAt | backend/services/youtube.js:8 | a capture at one start position, with the alternatives tried in order, is non-empty and holds no stop character |
| Patterns.Search | backend/services/youtube.js:13 | a match anywhere in the text captures a non-empty run free of stop characters |
| Patterns.NoMarkerNoCapture | backend/services/youtube.js:8 | where no alternative's marker occurs, nothing is captured |
| Patterns.SearchSkips | backend/services/youtube.js:13 | start positions that capture nothing do not change the result |
| Patterns.SearchFindsLeftmost | backend/services/youtube.js:13 | the first start position that captures decides the match |
| Patterns.SearchFails | backend/services/youtube.js:13 | with no capture at any start position there is no match |
| Patterns.SearchIsLeftmost | backend/services/youtube.js:13 | every match is the capture at some start position, and no earlier position captures |
| Patterns.CaptureOfMarker | backend/services/youtube.js:8 | the earliest alternative whose marker occurs wins, and its capture is the whole run after the marker |
| Patterns.FirstMarkerCaptures | backend/services/youtube.js:8 | text where nothing is captured before a marker, followed by an id and a terminator, matches with exactly that id |
| Patterns.RunOfWord | backend/services/youtube.js:8 | the run after a marker is exactly an id followed by a stop character or by the end of the text |
| Common.Utf16Length | backend/services/youtube.js:9 | a string's JavaScript length lies between its character count and twice that, and equals the character count when every character lies in the Basic Multilingual Plane |
| Common.Utf16LengthSnoc | backend/services/youtube.js:9 | appending a character adds its own code units to the length |
| YouTube.IsBareId | backend/services/youtube.js:9 | a bare id is 6 to 11 characters long; for text in the Basic Multilingual Plane it is exactly 11 characters without `&?#` or newline |
| YouTube.ExtractVideoId | backend/services/youtube.js:4-18 | a null, undefined or empty input gives null; any result is non-empty and contains no `&`, `?`, `#` or newline |
| YouTube.MarkerUrlCapturesId | backend/services/youtube.js:7-15 | a URL made of a prefix containing no `y`, then either marker, an id and a terminator, yields the id |
| YouTube.EarlierMarkerWins | backend/services/youtube.js:8-13 | a marker earlier in the text wins over a later one: `youtu.be/a&youtube.com/watch?v=b` yields `a` |
| YouTube.WatchUrlYieldsId | backend/services/youtube.js:7-15 | `https://www.youtube.com/watch?v=<id>` followed by nothing or by `&…`, `?…`, `#…` or a newline yields the id |
| YouTube.ShortUrlYieldsId | backend/services/youtube.js:7-15 | `https://youtu.be/<id>` with the same endings yields the id |
| YouTube.NoMarkerNoMatch | backend/services/youtube.js:8 | text without either marker does not match the first pattern |
| YouTube.BareIdUnchanged | backend/services/youtube.js:9-15 | a string of 11 UTF-16 code units without `&?#`, newline or `youtu.be/` comes back unchanged |
| YouTube.NeitherPatternGivesNull | backend/services/youtube.js:7-17 | text with no marker and a length other than 11 UTF-16 code units gives null |
| YouTube.BareIdCountsCodeUnits | backend/services/youtube.js:9 | the bare-id pattern counts code units, not characters: nine letters and an emoji (11 code units) come back unchanged, ten letters and an emoji (12 code units) give null |
| YouTube.MarkerPatternFirst | backend/services/youtube.js:7-15 | the marker pattern is tried first: `youtu.be/ab` is a valid bare id, yet yields `ab` |
| YouTube.SameIdFromEveryForm | backend/services/youtube.js:4-18 | a bare id of 11 code units, its watch URL and its short link all yield the same id |
| YouTube.TranscriptErrorMessage | backend/services/youtube.js:45-56 | a message containing "Subtitles are disabled for this video" maps to "No transcript available for this video"; exactly "No transcript available" maps to "No transcript found for this video"; anything else maps to "Failed to fetch video transcript"; each in both directions |
| YouTube.GetTranscript | backend/services/youtube.js:20-58 | the transcript is returned exactly when the loader returns documents and the first has non-blank text, and it is that text; every failure throws one of the three mapped messages |
| YouTube.TranscriptFailureMessages | backend/services/youtube.js:32-56 | no documents gives "No transcript found for this video"; a blank transcript gives "Failed to fetch video transcript"; disabled subtitles give "No transcript available for this video" |
| YouTube.TrimStart | backend/services/youtube.js:39 | `trim`'s removal at the start: the result is a suffix, every removed character is white space, and the result is empty or starts with a non-white-space character |
| YouTube.TrimEnd | backend/services/youtube.js:39 | `trim`'s removal at the end: the result is a prefix, every removed character is white space, and the result is empty or ends with a non-white-space character |
| YouTube.IsBlank | backend/services/youtube.js:39 | the blank-transcript test as a predicate: every character is white space or a line terminator; `BlankIffTrimmedEmpty` ties it to `trim` |
| YouTube.BlankIffTrimmedEmpty | backend/services/youtube.js:39 | a transcript is rejected as blank exactly when `trim()` leaves it empty |
| YouTube.GetVideoInfo | backend/services/youtube.js:61-81 | the first document's metadata exactly when the loader returns documents; every failure throws "Failed to fetch video information" |
| VectorStore.Namespace | backend/services/vectorStore.js:72 | a video's namespace is `video_` followed by its id |
| VectorStore.VideoIdOf | backend/services/vectorStore.js:219 | removing the first `video_` from a namespace that starts with it leaves what follows the prefix |
| VectorStore.NamespaceRoundTrip | backend/services/vectorStore.js:217-220 | namespaces and video ids correspond one to one: prefixing then stripping, and stripping then prefixing, give back the start; different ids get different namespaces |
| VectorStore.NamespaceIndex.Upsert | backend/services/vectorStore.js:67-75 | upserting n documents adds n to that namespace's count and leaves every other namespace alone |
| VectorStore.NamespaceIndex.Drop | backend/services/vectorStore.js:199 | deleting a namespace removes it and its vectors and leaves every other namespace alone |
| VectorStore.ProcessedVideoIdsMembership | backend/services/vectorStore.js:217-220 | the filter-strip-filter pipeline keeps exactly the ids whose namespace is listed with a positive vector count |
| VectorStore.ProcessedVideoIdsInOrder | backend/services/vectorStore.js:214-222 | the pipeline keeps the index's listing order, because it distributes over concatenation |
| VectorStore.ProcessedVideoIds | backend/services/vectorStore.js:217-220 | the filter, strip and filter pipeline over the listed namespace keys; what it yields is stated by `ProcessedVideoIdsMembership` (exactly the ids whose namespace holds vectors) and `ProcessedVideoIdsInOrder` (in listing order) |
| VectorStore.VectorStoreService.constructor | backend/services/vectorStore.js:7-19 | a new service starts with an empty cache |
| VectorStore.VectorStoreService.CreateVectorStore | backend/services/vectorStore.js:57-87 | on success, a fresh handle on the video's namespace replaces any cached one, and the index gains the documents; on failure, the cache and the index are unchanged |
| VectorStore.VectorStoreService.LoadVectorStore | backend/services/vectorStore.js:89-117 | a cached handle is returned without touching the index; on a miss, a fresh handle on the namespace is cached and returned, so the next load returns the same handle |
| VectorStore.VectorStoreService.VectorStoreExists | backend/services/vectorStore.js:119-141 | a cached id gives true; otherwise the result is truthy exactly when the namespace's count is positive; an absent namespace gives undefined and an error gives false |
| VectorStore.VectorStoreService.SimilaritySearch | backend/services/vectorStore.js:144-168 | the search addresses the video's namespace and asks for 2 results from a pool of `2 * k`; it settles to `SearchOutcome`: the load's rejection for an uncached id, else the search's own outcome; it caches at most the requested id, with a fresh handle, and keeps every cached entry |
| VectorStore.SearchOutcome | backend/services/vectorStore.js:146-167 | the search settles to results exactly when a handle is available and the search returns, and they are the search's results; otherwise it rethrows the load's message for an uncached id whose load fails, and the search's message otherwise |
| VectorStore.VectorStoreService.DeleteVectorStore | backend/services/vectorStore.js:190-206 | the id, and only that id, is evicted before the remote delete, so the eviction stands when the delete throws; on success the namespace is gone |
| VectorStore.VectorStoreService.GetProcessedVideos | backend/services/vectorStore.js:208-227 | exactly the ids whose namespace holds vectors; `[]` on error |
| VectorStore.VectorStoreService.GetStorageStats | backend/services/vectorStore.js:230-256 | `processedVideos` is the number of listed ids, `memoryCacheSize` the cache size, `totalVectors` the sum over the listed namespaces and `indexDimension` the index's dimension; every field is zero or empty on error |
| VectorStore.VectorStoreService.ClearMemoryCache | backend/services/vectorStore.js:259-262 | the cache is emptied and the index is untouched |
| Chatbot.ProcessVideo | backend/controllers/chatbot.js:15-81 | /process-video answers 200, 400, 404 or 500; a 200 comes right after the store write, for the reported id and chunk count |
| Chatbot.MissingIdAndUrlRejected | backend/controllers/chatbot.js:19-23 | with neither an id nor a URL the answer is 400 and no collaborator is called |
| Chatbot.IdBeforeUrl | backend/controllers/chatbot.js:28-34 | a given id is used verbatim and the URL is never parsed; otherwise the URL is parsed first, and a null extraction gives 400 |
| Chatbot.RequestedId | backend/controllers/chatbot.js:28 | a truthy given id is used as is; an id is available exactly when one is given or the URL yields one |
| Chatbot.FetchFailureIsNotFound | backend/controllers/chatbot.js:38-52 | a failed transcript or info fetch gives 404 with the rejecting fetch's message: the transcript's mapped message when only it fails, "Failed to fetch video information" when only the info fails, and the first rejection's when both fail; neither chunking nor storage runs |
| Chatbot.NoChunksNoStore | backend/controllers/chatbot.js:55-61 | an empty chunk list never reaches the store and gives 500 once both fetches succeeded |
| Chatbot.ProcessSuccess | backend/controllers/chatbot.js:63-73 | 200 exactly when every step succeeds; the body carries the extracted id, the number of chunks handed to the store, and the video information |
| Chatbot.Chat | backend/controllers/chatbot.js:83-133 | /chat answers 200, 400, 404 or 500 |
| Chatbot.ChatRejections | backend/controllers/chatbot.js:87-104 | a missing id or question gives 400 with no calls; a falsy existence check gives 404 after only that check; neither search nor generation runs in either case |
| Chatbot.ChatSuccess | backend/controllers/chatbot.js:106-124 | 200 exactly when the inputs are present, the store exists and both calls succeed; `sources` counts the retrieved documents, and the calls are check, search with k = 3, then generate |
| Chatbot.ConversationId | backend/controllers/chatbot.js:123 | a truthy given id is echoed; otherwise the id is `conv_` followed by the decimal digits of the timestamp, at least one and without a leading zero |
| Chatbot.GeneratedConversationIdsDiffer | backend/controllers/chatbot.js:123 | generated conversation ids for different timestamps differ |
| Chatbot.DecimalString | backend/controllers/chatbot.js:123 | the decimal rendering of a timestamp is non-empty, all digits, without a leading zero unless it is `0`, and reads back as the same number |
| Chatbot.VideoStatus | backend/controllers/chatbot.js:136-155 | always 200, reporting exactly what the existence check returned |
| Chatbot.DeleteVideo | backend/controllers/chatbot.js:158-176 | 200 exactly when the delete completes and 500 when it throws; one delete call |
| Chatbot.NoVectorsNoAnswer | backend/controllers/chatbot.js:93-104 | while every cached handle stands for a namespace holding vectors, a chat about a video with no stored vectors is refused with 404 (400 when a field is missing) and never reaches the search or the generator |
| Chatbot.ChatbotRouter.PostProcessVideo | backend/controllers/chatbot.js:15-81 | the route answers exactly as `ProcessVideo`; the store and index change exactly when it answers 200, by caching a fresh handle and upserting the chunks; it keeps every cached handle backed by a namespace that holds vectors |
| Chatbot.ChatbotRouter.PostChat | backend/controllers/chatbot.js:83-133 | the route answers exactly as `Chat` given the service's existence check and search; the index is untouched and cached handles are kept; the cache gains the requested id, with a fresh handle, exactly when the route reached the search, the id was not cached and loading it did not fail, and gains nothing else; it keeps every cached handle backed by a namespace that holds vectors |
| Chatbot.ChatbotRouter.GetVideoStatus | backend/controllers/chatbot.js:136-155 | the route answers exactly as `VideoStatus` given the service's existence check |
| Chatbot.ChatbotRouter.DeleteVideoData | backend/controllers/chatbot.js:158-176 | the route answers exactly as `DeleteVideo`; the id is evicted either way, and the namespace is dropped only on success; it keeps every cached handle backed by a namespace that holds vectors |
| Chatbot.DeleteThenStatus | backend/controllers/chatbot.js:136-176 | after a completed delete, the status of that video is not truthy, whether or not the status check fails |
| Chatbot.ProcessThenStatus | backend/controllers/chatbot.js:65-146 | after a successful process, the status of that video is true, whatever the index says |
| Background.ProcessedKey | extension/background/background.js:130 | a status key is `processed_` followed by the id |
| Background.ChatKey | extension/background/background.js:256 | a history key is `chat_` followed by the id |
| Background.KeysDistinct | extension/background/background.js:254-277 | chat keys, status keys, `currentVideo` and `chatRequest` never collide, and different videos get different keys |
| Background.FixedKeysWellTyped | extension/background/background.js:103-105 | the records written under `currentVideo` and `chatRequest` are the kind those keys hold |
| Background.RequestError | extension/background/background.js:122-124 | a request ends in an error exactly when `fetch` rejects or the reply is not ok; the error is the rejection's message, else the backend's `error`, else the fallback |
| Background.ProcessRecord | extension/background/background.js:128-151 | the status record is `completed` with the backend's chunk count exactly on an ok reply, and `failed` otherwise |
| Background.ProcessOutcome | extension/background/background.js:108-158 | `processVideo` succeeds exactly on an ok reply with writable storage, with the backend's body as data; when storage rejects, the rejection escapes |
| Background.ProcessRecordMatchesReply | extension/background/background.js:128-156 | the stored status is completed exactly when the reply succeeds, and a failed record carries the reply's error |
| Background.ChatReply | extension/background/background.js:160-213 | success exactly on an ok reply, carrying the backend's response and source count; otherwise the request's error |
| Background.CheckVideoStatus | extension/background/background.js:215-237 | success exactly on an ok reply, copying the backend's `processed` flag; otherwise the request's error |
| Background.Exchange | extension/background/background.js:184-197 | an exchange is two entries: the user's message, then the assistant's response with its sources |
| Background.Settled | extension/background/background.js:87-90 | a handler's rejection becomes a failure reply carrying its message |
| Background.Acknowledged | extension/background/background.js:49-52 | a handler that only writes storage is acknowledged exactly when the write succeeds |
| Background.YouTubeChatbotBackground.constructor | extension/background/background.js:11-14 | a new worker knows no current video and sees storage as it was persisted |
| Background.YouTubeChatbotBackground.Set | extension/background/background.js:103-105 | a storage write sets one key, or rejects and changes nothing |
| Background.YouTubeChatbotBackground.GetChatHistory | extension/background/background.js:254-262 | the stored list, or `[]` when the key is absent or reading fails |
| Background.YouTubeChatbotBackground.SaveChatHistory | extension/background/background.js:264-272 | only the video's chat key changes, and a saved list reads back unchanged; a failed write is swallowed |
| Background.YouTubeChatbotBackground.ClearChatHistory | extension/background/background.js:274-280 | removes exactly the video's chat key, after which the history reads `[]`; a failed removal is swallowed |
| Background.YouTubeChatbotBackground.HandleVideoChanged | extension/background/background.js:93-106 | `currentVideoData` becomes the message's id and metadata with the timestamp, even when the write fails; the write stores it under `currentVideo` |
| Background.YouTubeChatbotBackground.ProcessVideo | extension/background/background.js:108-158 | settles to `ProcessOutcome`; `processed_<id>` receives `ProcessRecord` and nothing else changes |
| Background.YouTubeChatbotBackground.SendChatMessage | extension/background/background.js:160-213 | answers `ChatReply`; on success the two exchange entries are appended after the history as read, and on failure storage is untouched |
| Background.YouTubeChatbotBackground.OpenChatWindow | extension/background/background.js:239-252 | stores the chat request under `chatRequest` and nothing else |
| Background.YouTubeChatbotBackground.HandleMessage | extension/background/background.js:46-91 | exactly one reply per message. An unknown type gets "Unknown message type" and changes nothing. `GET_CURRENT_VIDEO` returns the latest video data. Each other type gives its handler's reply and state change, with a rejection turned into a failure reply |
| Background.ChatTwice | extension/background/background.js:184-199 | two successful exchanges with working storage leave the earlier history followed by both exchanges, in order |
| Background.UnknownMessageChangesNothing | extension/background/background.js:84-85 | a message of unknown type is refused and changes no state |
| ContentScript.QueryGet | extension/content/content-script.js:39-40 | a parameter lookup is null exactly when no parameter has the name; otherwise the value is one given for that name |
| ContentScript.QueryGetFirst | extension/content/content-script.js:40 | the first parameter with the name decides |
| ContentScript.ExtractVideoId | extension/content/content-script.js:38-50 | a non-empty `v` parameter is the id; otherwise any id comes from the path; every id is non-empty, and a path id holds no `/` or `?` |
| ContentScript.PathSegmentYieldsId | extension/content/content-script.js:42-47 | without `v`, the path `/watch/<id>` followed by nothing, `/…` or `?…` yields the id |
| ContentScript.NoSegmentNoId | extension/content/content-script.js:42-47 | without `v` and without `/watch/` in the path there is no id |
| ContentScript.WatchPathNeedsParameter | extension/content/content-script.js:42-47 | on the path `/watch` without a non-empty `v` the path fallback finds no id |
| ContentScript.IsVideoPage | extension/content/content-script.js:238-240 | a page is a video page exactly when its path is `/watch` and `v` is non-empty |
| ContentScript.NotifiedNoRepeats | extension/content/content-script.js:104-118 | notified ids are non-empty and were all observed; no two in a row are equal; the first differs from the id known before; the last is the id known after |
| ContentScript.NotifiedSnoc | extension/content/content-script.js:104-118 | one more page check extends the notifications of the earlier checks; this ties the per-call contracts to the whole run |
| ContentScript.NotifiedStep | extension/content/content-script.js:105-109 | one page check notifies an id and makes it known exactly when it is present and differs from the known id |
| ContentScript.NoticeKeepsAgreement | extension/content/content-script.js:107-118 | sending a notice for a new, non-empty id keeps the current id naming the last notice, with no id repeated back to back |
| ContentScript.SameIdNotifiedOnce | extension/content/content-script.js:107-118 | however often the page reports one new id, it is notified exactly once, and never when it is already known |
| ContentScript.KnownIdNotNotified | extension/content/content-script.js:107 | reports of the already known id notify nothing |
| ContentScript.ChangeNotices | extension/content/content-script.js:107-118 | one page check sends notices whose ids are exactly the reference notifications, each carrying the page's metadata |
| ContentScript.YouTubeChatbotContentScript.constructor | extension/content/content-script.js:5-10 | the script starts with no current or known id and has sent nothing |
| ContentScript.YouTubeChatbotContentScript.OnVideoChange | extension/content/content-script.js:104-123 | the notices sent so far stay, and `ChangeNotices` is appended: one notice with the metadata for a present id other than the last known one, none otherwise; current and known id both become `LastKnown`; the current id is never reset to null |
| ContentScript.YouTubeChatbotContentScript.ObserveVideoChanges | extension/content/content-script.js:83-99 | setup records the address and checks the page once: earlier notices stay, `ChangeNotices` is appended, and both ids become `LastKnown` |
| ContentScript.YouTubeChatbotContentScript.OnMutation | extension/content/content-script.js:87-93 | the page is checked exactly when the address differs from the last one seen, with the same new state as one `OnVideoChange`; otherwise nothing but the address changes |
| ContentScript.YouTubeChatbotContentScript.HandleMessage | extension/content/content-script.js:205-233 | `isOnVideoPage` holds exactly when a current id is set, and metadata comes back exactly then; an unknown type gets "Unknown message type" |
| ContentScript.RevisitNotifiesNothing | extension/content/content-script.js:87-93 | a second mutation at the same address does not check the page, so at most one notice is sent |

## Left out

- The hosted services are not modelled: the transcript loader, the text splitter, embeddings, the vector index API (`listIndexes`, `createIndex`, `describeIndexStats`, `deleteAll`), `PineconeStore.fromDocuments`, the language model and `fetch`. What each one settles to is an input.
- `initializePineconeIndex` is not modelled: index creation, its fixed dimension and metric, and the 10-second provisioning wait. Only its failure is kept, as part of each operation's fault input.
- The max-marginal-relevance ranking and its `lambda: 0.7` are floating-point scoring inside the library. Only the request parameters are modelled.
- `similaritySearchWithScore` is not called by any route and is not modelled.
- backend/services/langchain.js is not part of this model. Text splitting and response generation are outcome inputs.
- extension/popup/popup.js and extension/services/api-service.js are not part of this model. They are DOM rendering and thin `fetch` wrappers.
- Chatbot.ProcessVideo: `Promise.all` concurrency is reduced to two outcomes plus a flag. The flag says whose error is reported when both fail.
- Chatbot.ProcessVideo, Chatbot.Chat, Chatbot.VideoStatus, Chatbot.DeleteVideo: the `details` field of error bodies is not modelled. Outside production it holds the error's stack in /process-video and the error's message in /chat, /video-status and /video.
- Chatbot.ProcessVideo: the body's `videoId` and `videoUrl` are taken to be strings or absent. Any other JSON value is not modelled. A number as `videoUrl`, for instance, makes `url.match` throw a `TypeError`, answered with 500 and that message. A number as `videoId` would be used as it is, as a cache key different from the string id.
- Chatbot.Chat: the body's `videoId`, `question` and `conversationId` are taken to be strings or absent. Any other JSON value is not modelled.
- Chatbot.ProcessVideo: a `null` chunk list from the splitter is not modelled. The splitter returns a list or throws.
- VectorStore.VectorStoreService.CreateVectorStore: a partial upsert before a failure is not modelled. A failed create leaves the index as it was.
- VectorStore.NamespaceIndex.Upsert: vector ids and contents are not modelled, only per-namespace counts.
- Background.YouTubeChatbotBackground.HandleMessage: every storage write during one message fails alike, with the same message. A first write failing and a second succeeding is not modelled.
- Background.YouTubeChatbotBackground.ProcessVideo: its two writes, the Processing record and then the final record, fail or succeed together, as on the line above.
- Background.YouTubeChatbotBackground.SendChatMessage: the two `Date.now()` calls of one message are one timestamp input.
- Background.YouTubeChatbotBackground.ProcessVideo: the two `Date.now()` calls of one message are one timestamp input.
- Background.Message: a missing `videoId` is not modelled. The text `undefined` would then appear in storage keys.
- The background worker's `onInstalled` and `tabs.onUpdated` listeners are not modelled. They open a tab or only log.
- Logging is not modelled.
- Concurrency is not modelled. Every route and every background message runs to completion before the next starts, whereas the source interleaves them at each `await`. Outcomes only an interleaving reaches are therefore missing. Two examples:
  - `createVectorStore` awaits the upsert before caching the handle (backend/services/vectorStore.js:67-78). A `DELETE /video/:id` that runs in between evicts and empties the namespace, and the handle is cached afterwards over an empty namespace. No sequential order reaches that state.
  - Two overlapping `SEND_CHAT_MESSAGE` messages each read the history and then save it (extension/background/background.js:184-199). The later save drops the other exchange. `Background.ChatTwice` holds only for sequential sends.
- Strings are sequences of Unicode characters. A JavaScript string holding a lone surrogate has no counterpart here.
- ContentScript.YouTubeChatbotContentScript: the DOM work is not modelled: `getVideoMetadata` (its result is an input), `addChatButton` and its polling, `updateChatButton`, both `openChatPopup` definitions, and `MutationObserver` wiring.
- ContentScript.YouTubeChatbotContentScript: waiting for `DOMContentLoaded` is not modelled. `ObserveVideoChanges` is the point where setup runs.
- ContentScript.QueryGet: `URLSearchParams` decoding is not modelled. The query arrives already split into decoded name/value pairs.
- YouTube.GetTranscript: the loader is taken to reject with an `Error` whose `message` is a string. A rejection without one (a thrown string, `undefined`, a plain object) makes `error.message.includes` throw a `TypeError`, which then escapes in place of the three mapped messages. That case is not modelled.
- YouTube.IsBlank: `trim` is modelled by the fixed set of characters JavaScript treats as white space or line terminators.
