# Knowledge-base chat: a Dafny model

This project models the core of a retrieval-augmented chat assistant. The
backend holds Confluence pages as text: their own body and the text of
their PDF, Word and HTML attachments. It cuts that text into overlapping
chunks, uploads the chunks to a vector index in batches, and answers
questions through an agent that keeps one conversation per thread. The web
frontend sends questions, shows the answers with their de-duplicated
sources, and keeps a sidebar of conversations.

The model has one module per source file, plus small shared modules:

- `Wrappers`: `Option` and `Result`.
- `Text`: Python `strip` and JavaScript `trim`, each with its own whitespace set, and prefix, suffix and substring tests.
- `ChatTypes`: the wire records of `Frontend/types.ts`.
- `Sorting`: the descending sort by a key, shared by the sidebar and the conversation list.
- `Chunking`: `chunk_text`, record building and batching, whose code is the same in both ingestion files.

Modules that model the source:

- `Config` models the `PAGE_IDS` parsing. Its result is proved equal to an independent word splitter. From that come a clean-ids property, a split law and a round trip through a comma join.
- `KnowledgeBaseService` and `Pipeline` model the two ingestion classes. They state the documents kept and the batches sent. `Chunking` proves that the chunks are windows of the text, that their count is a ceiling division, and that the text can be put back together from the chunks.
- `AgentService` models `ConversationAgent`:
  - thread reuse or creation;
  - the run-creation retry loop;
  - fence stripping of the reply;
  - filtering of the cited match indices;
  - storing a turn;
  - listing, reading, deleting and renaming conversations.
- `ChatRouter` models the HTTP endpoints:
  - the no-match path;
  - the first-title step;
  - the per-source de-duplication of the citations, with their scores alongside;
  - the mapping of failures to 404 and 500.
- `MessageList`, `ConversationCache`, `ChatArea` and `Sidebar` model the React side:
  - the sources footer;
  - the query-cache merge of a finished turn;
  - the send / success / error cycle;
  - the theme toggle, rename and delete flows, and sorting.

The agent's service calls (run creation, run status, the thread listing,
the JSON parser) and the page and attachment downloads are parameters of
the functions and methods that use them. Time is an integer that is only compared.
Timestamps are the ISO strings of `datetime.now().isoformat()`. These come
in two formats, because the `.ffffff` part is left out when the
microseconds are 0. Comparing them as text still orders them in time: when
the two times share their seconds, the shorter string is a prefix of the
longer one, and a prefix sorts first.

## Model

| member | source | states |
|---|---|---|
| Config.ReSplit | backend/core/config.py:20 | `re.split` always yields at least one piece; the first piece is empty exactly when the text is empty or starts with a separator |
| Config.StripNonEmpty | backend/core/config.py:20 | the filter never yields more ids than there were pieces |
| Config.Words | backend/core/config.py:18-20 | the independent word splitter: text that starts with a non-separator yields a first word that starts with that character |
| Config.StripNonEmptyIsWords | backend/core/config.py:20 | splitting on separator runs and then dropping empty stripped pieces gives exactly the maximal separator-free words |
| Config.PageIdsAreWords | backend/core/config.py:18-20 | `PAGE_IDS` is the list of words of the environment string |
| Config.PageIdsClean | backend/core/config.py:20 | every page id is nonempty and contains no comma, dot, pipe or whitespace |
| Config.PageIdsConcat | backend/core/config.py:20 | joined together, the ids are exactly the non-separator characters of the input, in order |
| Config.PageIdsEmptyIff | backend/core/config.py:18-20 | there are no page ids exactly when the variable holds only separators |
| Config.PageIdsSplit | backend/core/config.py:20 | a separator splits the parse: the ids of `a + sep + b` are the ids of `a` followed by those of `b` |
| Config.PageIdsRoundTrip | backend/core/config.py:20 | parsing the comma-joined ids gives back the same ids |
| Config.WordsClean | backend/core/config.py:20 | the reference splitter yields nonempty separator-free words |
| Config.WordsEmptyIff | backend/core/config.py:20 | the reference splitter yields no words exactly on separator-only text |
| Config.WordsSplit | backend/core/config.py:20 | the reference splitter distributes over a separator |
| Config.WordsOfJoin | backend/core/config.py:20 | comma-joining clean ids and splitting again gives back the ids |
| Chunking.PySlice | backend/core/pipeline.py:202 | Python slicing clamps its bounds: in range it is the plain slice, and past the end it is the suffix |
| Chunking.ChunkText | backend/core/pipeline.py:197-204 | the `while start < len(text)` loop yields exactly the specified chunk sequence |
| Chunking.CeilDivBounds | backend/core/pipeline.py:200-203 | the ceiling division used for the counts is the least multiple count that covers the text |
| Chunking.ChunkCountFrom | backend/core/pipeline.py:200-203 | from any start, the loop makes ceil((len - start) / (size - overlap)) chunks |
| Chunking.ChunkCount | backend/core/pipeline.py:197-204 | the number of chunks is ceil(len / (size - overlap)), and there are none exactly when the text is empty |
| Chunking.WindowStartIsProduct | backend/core/pipeline.py:203 | after k steps the window starts at k * (size - overlap) |
| Chunking.ChunkAtFrom | backend/core/pipeline.py:200-203 | chunk k from a start is the text between its window start and min(start + size, len) |
| Chunking.ChunkAt | backend/core/pipeline.py:197-204 | chunk k is `text[k*step : min(k*step + size, len)]`, nonempty and at most `size` long |
| Chunking.JoinTailsFrom | backend/core/pipeline.py:197-204 | dropping the overlap from every later chunk and concatenating restores the text from that point on |
| Chunking.Reconstruction | backend/core/pipeline.py:197-204 | the first chunk plus the non-overlapping tails of the others is the original text |
| Chunking.PageSource | backend/services/knowledge_base.py:89 | the source label is `Confluence - ` followed by the page title |
| Chunking.BuildRecords | backend/services/knowledge_base.py:107-127 | the record loop yields, document after document, one record per chunk carrying its text, the document's source and its index |
| Chunking.EmptyDocumentHasNoRecords | backend/core/pipeline.py:216-218 | a document with empty content contributes no records |
| Chunking.RecordsProvenance | backend/services/knowledge_base.py:107-127 | every record is chunk i of some stored document, with that document's source and index i, and the record count is the total chunk count |
| Chunking.Batch | backend/services/knowledge_base.py:130-132 | the records are cut into consecutive slices of the batch size |
| Chunking.BatchesFromShape | backend/services/knowledge_base.py:130-132 | from any offset, the batches concatenate back to the remaining records, each holds 1 to `size` records, and every batch but the last is full |
| Chunking.BatchesShape | backend/core/pipeline.py:239-241 | all records are sent exactly once, in order, in ceil(n / 50) batches, all full except possibly the last |
| KnowledgeBaseService.PageDocument | backend/services/knowledge_base.py:75-92 | a page yields a document exactly on status 200, with source `Confluence - <title>` and the page text as content |
| KnowledgeBaseService.FetchedDocuments | backend/services/knowledge_base.py:141-147 | there is one document per page that answered 200, in page-id order; if every page fails, none is kept |
| KnowledgeBaseService.KnowledgeBase.constructor | backend/services/knowledge_base.py:14-15 | a new service holds no documents and has uploaded nothing |
| KnowledgeBaseService.KnowledgeBase.UploadToPinecone | backend/services/knowledge_base.py:103-137 | the upserts are the batches of 50 of the records of the stored documents, in order |
| KnowledgeBaseService.KnowledgeBase.RunPipeline | backend/services/knowledge_base.py:141-147 | the fetched documents are appended in page-id order, then everything stored is uploaded |
| KnowledgeBaseService.KnowledgeBase.FetchPages | backend/services/knowledge_base.py:144-147 | the fetch loop appends, in page-id order, the document of every page that answered 200 and nothing else |
| Pipeline.ExtractorForMediaTypes | backend/core/pipeline.py:171-179 | PDF, Word (docx and doc) and HTML (html and xhtml) media types select their extractor, and nothing else is supported |
| Pipeline.Section | backend/core/pipeline.py:150-190 | an attachment adds a headed section exactly when its download answered 200, its type is supported, and its extracted text is nonempty |
| Pipeline.CollectAttachmentText | backend/core/pipeline.py:150-190 | the attachment loop, with its skips and its caught exceptions, concatenates the sections in listing order |
| Pipeline.AttachmentTextEmptyIff | backend/core/pipeline.py:150-190 | the attachment text is empty exactly when no attachment contributes |
| Pipeline.PageDocument | backend/core/pipeline.py:124-195 | a page yields a document exactly on status 200 |
| Pipeline.PageContent | backend/core/pipeline.py:191-195 | the content starts with the page text, and equals it exactly when no listed attachment contributes |
| Pipeline.FetchedDocuments | backend/core/pipeline.py:250-256 | the number of documents equals the number of pages that answered 200; when every page answers, document k is page k's document, attachments included; if every page fails, none is kept |
| Pipeline.KnowledgeBase.constructor | backend/core/pipeline.py:16-17 | a new pipeline holds no documents and has uploaded nothing |
| Pipeline.KnowledgeBase.FetchConfluencePage | backend/core/pipeline.py:124-195 | `None` on a status other than 200; otherwise the page document, labelled with the page's source |
| Pipeline.KnowledgeBase.BuildRecordsSkippingEmpty | backend/core/pipeline.py:210-236 | skipping chunkless documents yields the same records as building them for every document |
| Pipeline.KnowledgeBase.UploadToPinecone | backend/core/pipeline.py:206-246 | the upserts are the batches of 50 of the records of the stored documents, in order |
| Pipeline.KnowledgeBase.RunPipeline | backend/core/pipeline.py:250-256 | the fetched documents, attachments included, are appended in page-id order, then everything stored is uploaded |
| Pipeline.KnowledgeBase.FetchPages | backend/core/pipeline.py:253-256 | the fetch loop appends, in page-id order, the document with attachment text of every page that answered 200 and nothing else |
| AgentService.DisplayTitle | backend/services/agent.py:535 | the shown title is never empty: a stored truthy title, else "New Conversation" |
| AgentService.Excerpt | backend/services/agent.py:497 | an excerpt is the first 200 characters of the chunk (all of it when shorter) followed by "..." |
| AgentService.SourcesInfo | backend/services/agent.py:495-499 | one source record per used match, in order, each built from that match |
| AgentService.StripFences | backend/services/agent.py:448-458 | the cleaned reply carries no surrounding whitespace |
| AgentService.StripFencesUnfenced | backend/services/agent.py:448-458 | a reply without an opening or closing fence is only stripped |
| AgentService.StripFencesJsonBlock | backend/services/agent.py:448-458 | a reply of the form "```json…```" yields its stripped inside (body nonempty, not starting with a backquote) |
| AgentService.StripFencesPlainBlock | backend/services/agent.py:448-458 | a reply of the form "```…```" whose inside does not start with "json" yields its stripped inside (body nonempty, not starting with a backquote) |
| AgentService.IndexOf | backend/services/agent.py:470 | an index is accepted exactly when it is an integer, booleans included as 0 and 1, within the match list |
| AgentService.UsedMatches | backend/services/agent.py:469-471 | the used matches are matches, and there are no more of them than indices |
| AgentService.UsedMatchesAllValid | backend/services/agent.py:469-471 | with all indices valid, the used matches are exactly `matches[i]` for each index, in index order and repeats kept |
| AgentService.UsedMatchesNoneValid | backend/services/agent.py:469-471 | with no valid index, no match is used |
| AgentService.FilterUsedMatches | backend/services/agent.py:467-471 | the filter loop computes the used matches |
| AgentService.ReadReply | backend/services/agent.py:463-483 | a reply that is not JSON keeps its text and all matches; JSON that is not an object raises `'<type>' object has no attribute 'get'` with its Python type name; an object without `answer` keeps the text, and one without indices uses no match |
| AgentService.NoGetNamesType | backend/services/agent.py:465 | the error text of `.get` on a value that is not an object names its Python type (`list`, `str`, `int`, `float`, `bool`, `NoneType`), so two types never give the same text |
| AgentService.FirstAssistantFound | backend/services/agent.py:445-447 | no reply exactly when no listed message has the assistant role; otherwise it is the text of the first such message |
| AgentService.FindAssistantReply | backend/services/agent.py:445-447 | the scan over the thread listing returns the first assistant message's text |
| AgentService.RunFromShape | backend/services/agent.py:347-364 | from any retry count, the loop calls at most the remaining number of times, every call but the last timed out, and the last call decides the outcome |
| AgentService.RunCreation | backend/services/agent.py:341-367 | at most three calls; a retry happens only after a time-out; the escaping error is always the last call's own, so the exhaustion error after the loop is never raised |
| AgentService.CreateRun | backend/services/agent.py:341-367 | the retry loop with its break, continue and re-raise computes the specified outcome and call count |
| AgentService.TurnOutcomes | backend/services/agent.py:440-524 | a turn is stored exactly when the run was created and completed, an assistant reply exists and it is not a non-object JSON value; unstored turns use no match; a failed status gives "Agent run <status>. Please try again."; used matches are always among the matches; a non-object JSON reply escapes as the `AttributeError` text naming its Python type |
| AgentService.OpenedShape | backend/services/agent.py:245-266 | a truthy stored thread id is reused and the store is unchanged; otherwise a fresh, empty, untitled thread is added |
| AgentService.WithTurnAppendsPair | backend/services/agent.py:485-509 | storing a turn appends the user message then the assistant message with its sources, and moves the update time |
| AgentService.AfterTurnShape | backend/services/agent.py:245-509 | after a stored turn the thread holds its previous messages plus the new pair; an unstored turn leaves it as opened |
| AgentService.Without | backend/services/agent.py:567-568 | removing a thread id keeps every other id, and keeps the order free of duplicates |
| AgentService.Agent.constructor | backend/services/agent.py:119 | a new agent stores no conversations |
| AgentService.Agent.Store | backend/services/agent.py:259-265 | storing a conversation under its id adds it to the map and, if it is new, at the end of the key order |
| AgentService.Agent.UseOrCreateThread | backend/services/agent.py:245-266 | the thread used is the stored one or a fresh one, and the store is as opened |
| AgentService.Agent.StoreTurn | backend/services/agent.py:485-509 | the stored thread gets the message pair; a thread that is gone is left unchanged |
| AgentService.Agent.GenerateAnswer | backend/services/agent.py:230-524 | the answer, thread id and used matches are those of the turn the service outcomes determine, and the store is the one after that turn |
| AgentService.RunTurn | backend/services/agent.py:341-524 | creating the run, scanning for the first assistant reply and reading it give exactly the turn whose outcomes `TurnOutcomes` states: the error of a failed run or of non-object JSON, the fixed answers without matches for a run that did not complete or left no reply, and otherwise the read answer and matches, to be stored |
| AgentService.Agent.GetConversations | backend/services/agent.py:526-542 | one summary per stored thread, none other, newest update first |
| AgentService.Agent.Summaries | backend/services/agent.py:531-538 | one summary per stored thread, the i-th for the i-th key in the store's key order |
| AgentService.Agent.GetConversation | backend/services/agent.py:544-560 | `None` exactly for an unknown thread; otherwise its view, with a nonempty title |
| AgentService.Agent.DeleteConversation | backend/services/agent.py:562-572 | true exactly when the thread was stored; afterwards it is gone and the rest is untouched |
| AgentService.Agent.UpdateConversationTitle | backend/services/agent.py:574-585 | true exactly when the thread is stored; it then gets the title and a new update time, and nothing else changes |
| ChatRouter.Kept | backend/routers/chat.py:90-101 | the kept matches are among the used matches |
| ChatRouter.ScoresOf | backend/routers/chat.py:100 | one confidence score per kept match, each being that match's score |
| ChatRouter.DedupSources | backend/routers/chat.py:86-101 | the `seen_sources` loop returns the source records and the scores of the first match of each source, in order |
| ChatRouter.KeptIsUniqueSources | backend/routers/chat.py:86-101 | the router's de-duplication agrees with the frontend's per-source de-duplication of the same records |
| ChatRouter.RouterSourcesDistinct | backend/routers/chat.py:86-101 | the cited sources are pairwise distinct, cover every used source, and are exactly the first occurrences |
| ChatRouter.RouterSourcesPaired | backend/routers/chat.py:86-101 | sources and confidence scores have equal length, and position i of both comes from the same used match |
| ChatRouter.HistoryFooterMatchesReply | Frontend/components/chat/MessageList.tsx:101-108 | the stored sources, which the agent does not de-duplicate, show in the history footer as exactly the router's reply list, and that list is left as it is |
| ChatRouter.NoMatchThreadId | backend/routers/chat.py:55 | a no-match thread id is "thread_" followed by the first 16 hex digits of the uuid |
| ChatRouter.TitleFor | backend/routers/chat.py:77-84 | an untitled thread gets the generated title, and a titled one keeps its own |
| ChatRouter.TitledOnce | backend/routers/chat.py:77-84 | a stored title is never replaced, the title returned is the one stored, and a nonempty generated title is generated only once |
| ChatRouter.ChatWithKnowledgeBase | backend/routers/chat.py:29-117 | no agent gives a 500; no match gives the fixed answer on the given id or on a new empty thread; otherwise the answer of the turn, with the title and the de-duplicated sources and scores; an escaping failure gives "Chat failed: " followed by its text with status 500, e.g. "Chat failed: 'list' object has no attribute 'get'" for a reply that parses to a list |
| ChatRouter.GetAllConversations | backend/routers/chat.py:119-136 | the agent's summaries, or a 500 without an agent |
| ChatRouter.GetConversation | backend/routers/chat.py:138-161 | the thread's view, a 404 "Conversation not found: <id>" for an unknown id, or a 500 without an agent |
| ChatRouter.DeleteConversation | backend/routers/chat.py:163-186 | the thread is gone afterwards; the reply is the success message, or a 404 if the thread was unknown |
| ChatRouter.UpdateConversationTitle | backend/routers/chat.py:188-211 | a known thread is renamed and its id and title are echoed; an unknown one gives a 404 and nothing changes |
| MessageList.Find | Frontend/components/chat/MessageList.tsx:102-103 | the lookup fails exactly when no accumulated source has the key, and otherwise returns one that has it |
| MessageList.UniqueSources | Frontend/components/chat/MessageList.tsx:101-108 | the footer list is no longer than the sources, and nonempty when they are |
| MessageList.FooterNonEmpty | Frontend/components/chat/MessageList.tsx:93 | a footer is drawn only for assistant messages, and then lists at least one source |
| MessageList.UniqueSourcesSubsequence | Frontend/components/chat/MessageList.tsx:101-108 | the footer keeps sources in their original order |
| MessageList.UniqueSourcesKeys | Frontend/components/chat/MessageList.tsx:101-108 | every source name appears in the footer |
| MessageList.UniqueSourcesDistinct | Frontend/components/chat/MessageList.tsx:101-108 | no source name appears twice |
| MessageList.UniqueSourcesFirstOccurrences | Frontend/components/chat/MessageList.tsx:101-108 | the footer holds exactly the first occurrence of each name |
| MessageList.UniqueSourcesOfDistinct | Frontend/components/chat/MessageList.tsx:101-108 | sources with distinct names are shown unchanged |
| MessageList.UniqueSourcesIdempotent | Frontend/components/chat/MessageList.tsx:101-108 | de-duplicating twice is the same as once |
| MessageList.UniqueSourcesExample | Frontend/components/chat/MessageList.tsx:101-108 | a later chunk of an already shown source is dropped |
| ConversationCache.MergedDetail | Frontend/components/ChatArea.tsx:64-75 | a finished turn appends the user then the assistant message to the cached thread, or starts a "New Chat" entry with just that pair |
| ConversationCache.MergedDetailTwice | Frontend/components/ChatArea.tsx:64-75 | two merged turns keep both pairs in order and the original title |
| ConversationCache.QueryClient.constructor | Frontend/components/ChatArea.tsx:23-27 | the cache starts empty with no list invalidation |
| ConversationCache.QueryClient.Get | Frontend/components/ChatArea.tsx:23-27 | a cached entry is returned exactly when its key is present |
| ConversationCache.QueryClient.Put | Frontend/components/ChatArea.tsx:23-27 | a finished detail fetch stores its entry under that thread's key and replaces only that key |
| ConversationCache.QueryClient.MergeTurn | Frontend/components/ChatArea.tsx:64-75 | the `setQueryData` updater replaces only the answered thread's entry with the merge |
| ConversationCache.QueryClient.InvalidateList | Frontend/components/ChatArea.tsx:83 | the conversation list is invalidated once more |
| ChatArea.QueryToSend | Frontend/components/ChatArea.tsx:93 | a truthy override wins over the input box |
| ChatArea.RequestFor | Frontend/components/ChatArea.tsx:96-99 | the request carries the query, and a thread id only when the active one is truthy |
| ChatArea.DispatchableIffTrimmed | Frontend/components/ChatArea.tsx:94 | the send guard holds exactly when `trim()` leaves something of the query and no request is pending, so a whitespace-only query is never sent |
| ChatArea.ChatArea.constructor | Frontend/components/ChatArea.tsx:15-20 | the view starts with an empty box, no messages and an idle mutation, and shows the hero exactly when it opens on a draft |
| ChatArea.ChatArea.SetActiveThread | Frontend/components/ChatArea.tsx:15 | the active thread prop changes and nothing else |
| ChatArea.ChatArea.SetInput | Frontend/components/ChatArea.tsx:17 | typing sets the input box and nothing else |
| ChatArea.ChatArea.HandleSend | Frontend/components/ChatArea.tsx:40-45 | a dispatchable query is sent with the active thread, shown at once as a user message, and clears the box, so the hero gives way to the message list; otherwise nothing changes |
| ChatArea.ChatArea.OnSuccess | Frontend/components/ChatArea.tsx:46-84 | the answer is appended to the log, the cache is merged under the answered thread, a new thread is announced only from a draft, and the list is invalidated; the hero is not shown afterwards |
| ChatArea.ChatArea.OnError | Frontend/components/ChatArea.tsx:85-88 | one alert; the optimistic user message stays and the box stays cleared |
| ChatArea.ChatArea.SyncEffect | Frontend/components/ChatArea.tsx:30-36 | when its dependencies change, the log becomes the cached messages, or empty on a draft; when they do not change, nothing happens |
| ChatArea.DraftTurnScenario | Frontend/components/ChatArea.tsx:40-84 | a draft opens on the hero and leaves it once the first query is sent; that turn caches "New Chat" with the pair, announces the new thread, and reloading that thread shows the pair |
| ChatArea.StaleCompletionScenario | Frontend/components/ChatArea.tsx:60 | an answer that arrives after the user switched threads is appended to the other thread's log, because no guard checks the thread |
| ChatArea.FailedTurnScenario | Frontend/components/ChatArea.tsx:85-99 | after a failure the log keeps the unanswered question, and sending the same query again issues the same request |
| Sidebar.InitialTheme | Frontend/components/Sidebar.tsx:117-122 | a truthy stored theme is used, otherwise "dark" |
| Sidebar.Toggled | Frontend/components/Sidebar.tsx:131-133 | the toggled theme is "light" or "dark", and differs from a valid current theme |
| Sidebar.ToggleTwice | Frontend/components/Sidebar.tsx:131-133 | toggling twice restores exactly the valid themes; an unknown theme ends as "dark" |
| Sidebar.ToggledThemeSurvivesReload | Frontend/components/Sidebar.tsx:117-129 | a toggled theme is persisted and read back on reload |
| Sidebar.MountedThemeStable | Frontend/components/Sidebar.tsx:117-129 | the theme written back on mount is read unchanged by the next mount; the stored value changes only when it was missing or empty, to "dark" |
| Sidebar.ConversationItem.constructor | Frontend/components/Sidebar.tsx:34-35 | a row starts out of edit mode with its title as the draft |
| Sidebar.ConversationItem.StartEditing | Frontend/components/Sidebar.tsx:91 | the pencil button enters edit mode |
| Sidebar.ConversationItem.SetEditTitle | Frontend/components/Sidebar.tsx:35 | typing sets the draft title |
| Sidebar.ConversationItem.CancelEditing | Frontend/components/Sidebar.tsx:56 | cancel leaves edit mode and keeps the draft |
| Sidebar.ConversationItem.HandleRename | Frontend/components/Sidebar.tsx:37-43 | a non-blank draft is issued as typed, untrimmed, and closes the editor; a blank one changes nothing |
| Sidebar.SidebarContent.constructor | Frontend/components/Sidebar.tsx:111-129 | the sidebar starts with the stored theme or "dark", the theme effect's first run writes that theme back to local storage, and no delete is pending |
| Sidebar.SidebarContent.SetActiveThread | Frontend/components/Sidebar.tsx:233 | the active thread prop changes and nothing else; afterwards a row is highlighted exactly when it is that thread's |
| Sidebar.SidebarContent.ToggleTheme | Frontend/components/Sidebar.tsx:124-133 | the theme flips and is persisted |
| Sidebar.SidebarContent.NewChat | Frontend/components/Sidebar.tsx:199-201 | New Chat selects no thread |
| Sidebar.SidebarContent.Select | Frontend/components/Sidebar.tsx:234-235 | clicking a row selects its thread |
| Sidebar.SidebarContent.Rename | Frontend/components/Sidebar.tsx:238 | a rename request is issued for that id and title |
| Sidebar.SidebarContent.HandleDelete | Frontend/components/Sidebar.tsx:159-161 | the trash button only records that id; the confirmation dialog, guarded by `deleteId &&`, then shows exactly when the id is nonempty |
| Sidebar.SidebarContent.CancelDelete | Frontend/components/Sidebar.tsx:331 | cancel clears the pending id, so the dialog is hidden, and deletes nothing |
| Sidebar.SidebarContent.ConfirmDelete | Frontend/components/Sidebar.tsx:163-168 | confirming deletes the pending id once and clears it; without a nonempty pending id nothing happens; either way the dialog is hidden afterwards |
| Sidebar.SidebarContent.OnDeleteSuccess | Frontend/components/Sidebar.tsx:142-147 | the list is refreshed, and deleting the open thread returns to a new chat |
| Sidebar.SidebarContent.OnRenameSuccess | Frontend/components/Sidebar.tsx:152-154 | the list is refreshed |
| Sidebar.SidebarContent.SortConversations | Frontend/components/Sidebar.tsx:170-172 | the rows are a permutation of the input, newest update first |
| Sidebar.DeleteSelectedScenario | Frontend/components/Sidebar.tsx:142-168 | the open thread's row is highlighted; the trash button opens the dialog and issues nothing; the confirmation issues one delete and closes the dialog; its success returns to a new chat |
| Sorting.SortDescending | backend/services/agent.py:541 | the array is sorted by descending key and is a permutation of its old contents |
| Text.TrimEmptyIffBlank | backend/core/config.py:20 | stripping gives the empty string exactly on whitespace-only text |
| Text.TrimIdempotent | backend/services/agent.py:448-458 | a stripped string has no edge whitespace, and stripping it again changes nothing |
| Text.AsciiLower | backend/services/agent.py:358 | lower-casing keeps the length and maps exactly the ASCII capitals |

## Left out

- The Azure agent calls are inputs to the model, not modelled calls: thread creation, message posting, run creation, run status, thread listing and JSON parsing. The run outcome enters as `create`, the final status as `status`, the listing as `listing`, the parser as `parse`, and a fresh thread id as `freshId`.
- The status polling loop, tool calls and the Jira tool are left out. Only the final run status is modelled.
- `generate_conversation_title` is a model call. Its result enters the router as `generatedTitle`.
- `search_knowledge_base` (embedding and vector query) and its failures are left out. The matches enter as a parameter, and scores are reals that are only copied.
- The Confluence, attachment and Pinecone HTTP traffic is left out. Page and attachment answers are function parameters, and the upserts are a recorded list.
- Upsert failures, which the source catches and prints, are not modelled.
- HTML cleaning and PDF/DOCX/HTML text extraction are library code. The extracted text is part of each download's outcome.
- Authentication, logging, console output, `time.sleep` back-off, uuid generation, the `token`, `role` and `username` keys of `localStorage` and all presentation markup are left out. Its `theme` key is modelled as `Sidebar.SidebarContent.storedTheme`. The uuid enters `ChatRouter.ChatWithKnowledgeBase` as its hex digits.
- Every turn is stamped with a single instant `now`. It stands for the new thread's `created_at` and `updated_at` (agent.py:263-264, stamped before the run is polled), the no-match thread's `created_at` and `updated_at` (chat.py:59-60), the three `datetime.now()` calls of a stored turn (agent.py:490, 504, 509), the title step's `updated_at` (agent.py:581, after a second model call from chat.py), and the `new Date()` calls of `onSuccess` (ChatArea.tsx:50 and 57). So a new thread in the model has `createdAt == updatedAt`, equal to its message timestamps, where the source's differ by seconds. No stated property depends on this.
- `Text.AsciiLower`: does not model the full Unicode `str.lower`. Only ASCII letters are mapped, and this is enough to decide whether a message contains "timed out".
- AgentService.ReadReply: an `answer` that is not a string, or `used_source_indices` that is not a list, is not modelled. A list index raising `TypeError` on an unhashable value is not modelled either.
- AgentService.Agent.GenerateAnswer: a match without `source`, `chunk_text` or `chunk_index` metadata, and an assistant message whose first content part is not text, raise in the source but are not modelled.
- Pipeline.CollectAttachmentText: malformed attachment metadata (missing `title` or `mediaType`) is not modelled.
- AgentService.Agent.GetConversations: the source sort is stable, but only the descending order and the contents are stated, not stability.
- Sidebar.SidebarContent.SortConversations: only the descending order and the permutation are stated, not stability. An invalid date giving `NaN` in the comparison is not modelled. The comparator sees `Date.getTime()` milliseconds, so in the source updates within one millisecond tie, while the model orders by the full timestamp.
- Chunking.ChunkText: requires `chunk_size > overlap`. Otherwise the source loop never ends on nonempty text, and the source only uses the defaults 1000 and 100.
- Concurrent requests to the agent and React's render scheduling are not modelled. Each method is one atomic step.
- The frontend's `api.ts` HTTP client and the `ChatPage` parent are not part of this model. The parent's callbacks are recorded as logs (`threadsCreated`, `selections`).
- Only ids that are already stored are reused. The no-match path echoes a supplied thread id without storing it (`ChatRouter.ChatWithKnowledgeBase` states this), so a later turn on that id creates a new thread.
