# Creator knowledge and chat core, in Dafny

This project models the deterministic core of a web application that scrapes a creator's
YouTube videos and Instagram reels and builds knowledge about the creator from them. It
then answers chat questions about that creator with retrieval-augmented prompts. The model
covers these parts:

- **Chat service** (`backend/services/ai_chat.py`):
  - keyword retrieval: tokenising, stop-words, `Counter.most_common`, scoring and a stable
    ranking (`keyword_search.dfy`, `sorting.dfy`);
  - the retrieval context, which holds keyword hits first and then semantic hits not
    already shown, each item at most once, under a 60000-character budget (`context.dfy`);
  - the content catalog (`catalog.dfy`);
  - the system prompt, whose sections each have a budget, as does the whole (`prompt.dfy`);
  - one conversation turn: guards, history, truncation of past and current turns, relay of
    the streamed reply, saving, and the title set on the first exchange (`conversation.dfy`).
- **Knowledge pipeline** (`backend/services/knowledge.py`):
  - video summaries in batches of ten, with their fallbacks and progress events
    (`summaries.dfy`, `batching.dfy`);
  - the upsert of knowledge documents, the profile statistics, style sampling, and the
    event timeline of `generate_all` (`knowledge.dfy`).
- **Vector store** (`backend/services/embeddings.py`, `embeddings.dfy`):
  - the document text of an item;
  - batched embedding;
  - the append-only store keyed `content_{id}`;
  - top-`n` search by similarity.
- **Scrapers** (`backend/services/youtube_scraper.py`, `backend/services/instagram_scraper.py`;
  `youtube.dfy`, `instagram.dfy`, `scraping.dfy`, `dates.dfy`):
  - normalisation of handles and links;
  - video-id extraction by regular expression;
  - date parsing with `strptime`;
  - incremental deduplication against stored external ids;
  - progress cadence;
  - the retry schedule of the Apify call.
- **Chat router** (`backend/routers/chat.py`, `chat_router.dfy`, `json.dfy`):
  - the ordered validation of a message with attached files;
  - the server-sent event framing of a reply, including `json.dumps` string literals and
    how a client reads them back;
  - the two message endpoints;
  - the id parsing and rows of the creator comparison.

Three kinds of thing become parameters or fields:

- **Outside calls.** The language model, the embedding provider, the Apify actor, yt-dlp
  and the transcript lookup are function parameters or given `Result` values.
- **Database tables.** They are sequences, held as fields of the classes whose methods
  update them: `ChatService`, `KnowledgeBase`, `VectorStore` and `ContentTable`.
- **Sleeps and progress.** Sleeps are returned as lists of pauses, and progress callbacks
  as lists of events.

The similarity measure is an arbitrary real-valued function.

Where the code and the design description of the system differ, the model follows the code:

- **Stop-words can still be keywords.** The design says stop-words never influence keyword
  scoring. The code instead falls back to the first five words when every word of the
  question is a stop-word (`backend/services/ai_chat.py:360-361`), and
  `KeywordSearch.CandidatesOfWords` states that behaviour.
- **The context budget cuts mid-record.** The context budget cuts the joined text at
  character 60000 and appends the marker, wherever that falls
  (`backend/services/ai_chat.py:325-327`). It does not cut at a record boundary.
- **The progress timeline can step back.** The opening event of `generate_all` reports
  0.025. The first summary batch's event reports `1/total` scaled into the summary stage's
  range. The opening value is the larger exactly when there are more than 20 batches, that
  is, more than 200 items to summarise. In that case the reported progress steps back
  after the opening event. `KnowledgeService.OpeningAboveFirstBatch` proves this; the model
  emits both events as the code does.

## Model

| member | source | states |
|---|---|---|
| `Sorting.SortDescCorrect` | backend/services/ai_chat.py:397 | `sort(key, reverse=True)` as a stable descending sort: the result is sorted by non-increasing key, is a permutation of the input, and keeps the input order of equal keys |
| `Sorting.SortDescStable` | backend/services/ai_chat.py:397 | for every key value, the elements with that key appear in the same relative order as in the input |
| `Sorting.TopKeysDominate` | backend/services/ai_chat.py:398 | after a descending sort, no element beyond the cut has a larger key than one kept |
| `KeywordSearch.TokensSound` | backend/services/ai_chat.py:357 | every extracted word is a match of `\b[a-zA-Z]{3,}\b`: a run of at least three ASCII letters not touching a letter, digit or `_` on either side |
| `KeywordSearch.TokensComplete` | backend/services/ai_chat.py:357 | every such bounded run of letters is extracted |
| `KeywordSearch.WordsAreLowerWords` | backend/services/ai_chat.py:356-357 | the words come from the first 500 characters, lower-cased: each is a lower-case ASCII run of length at least 3 |
| `KeywordSearch.NonStop` | backend/services/ai_chat.py:358 | a word survives the filter if and only if it is a word of the question and not a stop-word |
| `KeywordSearch.CandidatesOfWords` | backend/services/ai_chat.py:358-364 | candidates are non-stop-words when any exist, otherwise drawn from the first five words; they are empty if and only if the question has no words |
| `KeywordSearch.MostCommonFacts` | backend/services/ai_chat.py:367-368 | `Counter.most_common(n)`: at most `n` distinct candidates, by non-increasing frequency, none left out more frequent than one kept, all kept when there are at most `n` |
| `KeywordSearch.KeywordsFacts` | backend/services/ai_chat.py:355-368 | at most 15 distinct keywords, all words of the truncated lower-cased question; stop-words only when every word is one; empty if and only if there are no words; ranked by frequency |
| `KeywordSearch.ScorePositiveIff` | backend/services/ai_chat.py:385-392 | an item scores above 0 if and only if some keyword occurs in its searchable text |
| `KeywordSearch.ItemScore` | backend/services/ai_chat.py:385-390 | the scoring loop computes the sum of the keywords' non-overlapping occurrence counts |
| `KeywordSearch.Scored` | backend/services/ai_chat.py:376-394 | the scored list holds exactly the items with a positive score, each with its own score and platform, in input order |
| `KeywordSearch.ScoreItems` | backend/services/ai_chat.py:376-394 | the loop over the creator's items builds exactly that scored list |
| `KeywordSearch.RankFacts` | backend/services/ai_chat.py:397-398 | the ranked cut has at most `max_results` hits, sorted by non-increasing score, all from the scored list, and all of them when there are few enough |
| `KeywordSearch.RankDominates` | backend/services/ai_chat.py:397-398 | no hit left out scores higher than a hit kept |
| `KeywordSearch.TopHitsFacts` | backend/services/ai_chat.py:330-398 | `_keyword_search` returns at most `max_results` hits by non-increasing score, each an item of the creator's platforms with its positive score and its platform, with no item twice |
| `KeywordSearch.TopHitsAreBest` | backend/services/ai_chat.py:392-398 | a scoring item left out scores no higher than any hit returned, and every scoring item is returned when at most `max_results` score |
| `KeywordSearch.Search` | backend/services/ai_chat.py:330-398 | the method (keywords, scoring loop, stable sort, cut) returns exactly the specified top hits; no keywords gives `[]` |
| `Context.FormatItemFullFacts` | backend/services/ai_chat.py:400-414 | the record starts with `[label] title-or-external-id`; the URL line is there iff the item has a URL; the caption line, cut to 1000, iff it has a caption; the transcript line, cut to the limit, iff its transcript is non-empty and differs from the caption |
| `Context.NewIdsFacts` | backend/services/ai_chat.py:304-309 | the semantic ids are distinct, never 0 or missing, never already seen; every present non-zero unseen id is taken |
| `Context.ContextUsesIdsOnce` | backend/services/ai_chat.py:288-318 | every content id appears at most once in the assembled context, and every present non-zero semantic id appears somewhere |
| `Context.ContextWithoutPlatforms` | backend/services/ai_chat.py:284-286 | the context is "No content data available yet." if and only if the creator has no platforms, whatever the searches found |
| `Context.ContextFallback` | backend/services/ai_chat.py:322-323 | the context is the fallback sentence if and only if neither search contributed a section |
| `Context.ContextBudget` | backend/services/ai_chat.py:325-327 | the context is cut to 60000 characters plus the marker if and only if the joined parts exceed 60000; it is never longer than 60000 plus the marker |
| `Context.KeywordSection` | backend/services/ai_chat.py:292-297 | the keyword loop emits one record and one separator per hit and records each hit's id in the seen-set |
| `Context.TakeNewIds` | backend/services/ai_chat.py:304-309 | the loop over semantic results returns the fresh ids and the seen-set grown by exactly those ids |
| `Context.SemanticSection` | backend/services/ai_chat.py:313-318 | one record per taken id whose item still exists, in order |
| `Context.SemanticPart` | backend/services/ai_chat.py:299-320 | a search error or empty result contributes nothing; otherwise the header and the records of the fresh ids |
| `Context.SemanticSearchFacts` | backend/services/ai_chat.py:300-302 | the context's semantic search runs over the creator's store with the first 500 characters of the question and `n_results=5`: an empty store gives no results, a successful search gives exactly `min(5, entries with a vector)` results, each from the store, in non-decreasing distance |
| `Context.GatherSections` | backend/services/ai_chat.py:288-320 | the keyword section followed by the section of the semantic search of the creator's store |
| `Context.BuildContext` | backend/services/ai_chat.py:278-328 | `_build_context` returns exactly the specified context text for the outcome of the five-result search of the creator's store |
| `Catalog.CatalogSummary` | backend/services/ai_chat.py:269 | the summary shown is the stored summary when non-empty, else the title when non-empty, else the external id |
| `Catalog.CatalogOneLinePerItem` | backend/services/ai_chat.py:264-276 | splitting the catalog at line breaks gives exactly one line per item, line `i` for item `i`, each starting with its platform label, date or `?`, and summary |
| `Catalog.CatalogEmpty` | backend/services/ai_chat.py:251-262 | the catalog is "No content available." if and only if there are no platforms or no items; a non-empty catalog starts with a `- [` line |
| `Catalog.BuildLines` | backend/services/ai_chat.py:264-274 | the loop writes one catalog line per item, in the query's order |
| `Catalog.BuildCatalog` | backend/services/ai_chat.py:249-276 | `_build_content_catalog` queries the creator's items from the content table and returns the catalog of that answer |
| `Prompt.KnowledgeOf` | backend/services/ai_chat.py:147-150 | the knowledge map lookup yields a row of that creator and kind when one exists, and nothing exactly when none does |
| `Prompt.Tier1Facts` | backend/services/ai_chat.py:152-165 | the profile section comes first and hides the creator summary; without a profile a non-empty summary takes its place; one section per existing document; the tier is empty if and only if there is nothing to show |
| `Prompt.FilesSectionFacts` | backend/services/ai_chat.py:202-212 | the files section is empty if and only if no file is attached; otherwise it starts with its header and the first file's heading |
| `Prompt.PromptBudget` | backend/services/ai_chat.py:193-200 | the prompt is cut to `max_system_prompt_chars` plus the marker if and only if it is longer; when it fits, it contains the capped catalog and the capped context whole |
| `Prompt.ContextCutTwice` | backend/services/ai_chat.py:198-200 | a context already cut by the context builder is cut again at 60000, so only the prompt composer's marker survives |
| `Prompt.PlatformsInfo` | backend/services/ai_chat.py:137-144 | one `  - Type: @handle (n items)` line per platform, or "  No platforms linked" |
| `Prompt.BuildFilesSection` | backend/services/ai_chat.py:203-212 | one fenced part per attachment, in upload order, under the header; empty without attachments |
| `Prompt.BuildSystemPrompt` | backend/services/ai_chat.py:128-247 | `_build_system_prompt` returns exactly the specified prompt: catalog capped at 40000, context at 60000, then the whole at 120000 |
| `Conversation.SessionMessages` | backend/services/ai_chat.py:41-46 | exactly the messages of the session, in saved order |
| `Conversation.History` | backend/services/ai_chat.py:431-439 | the newest `chat_history_limit` messages of the session, oldest first |
| `Conversation.HistoryAfterExchange` | backend/services/ai_chat.py:66-72 | after a turn saves the user message and the reply, the next turn's history ends with exactly those two messages |
| `Conversation.HistoryTurn` | backend/services/ai_chat.py:80-84 | a past turn keeps its role; longer than 3000 characters it becomes its first 3000 characters ending in "\n[...truncated]", otherwise it is unchanged |
| `Conversation.CurrentTurn` | backend/services/ai_chat.py:86-93 | the current turn is a user turn, cut to `max_user_msg_to_claude` characters plus the marker if and only if it is longer |
| `Conversation.TurnsAt` | backend/services/ai_chat.py:79-93 | the model's message list is one turn per history message, in order, followed by the current turn exactly once |
| `Conversation.BuildTurns` | backend/services/ai_chat.py:79-93 | the loop builds exactly that list |
| `Conversation.RelayFacts` | backend/services/ai_chat.py:98-113 | the chunks are yielded unchanged and in order; on success the saved reply is their concatenation; on failure the last yielded text is the error text, which is also what is saved |
| `Conversation.Relay` | backend/services/ai_chat.py:98-113 | the stream loop and its `except` branch yield and accumulate exactly that |
| `Conversation.SessionIndex` | backend/services/ai_chat.py:56 | the session lookup finds a session with that id, or none exists |
| `Conversation.Locate` | backend/services/ai_chat.py:56-64 | the guards pass only for an existing session whose creator exists; otherwise the error is "session not found" or "creator not found" |
| `Conversation.AskedOf` | backend/services/ai_chat.py:56-67 | the model is asked if and only if both guards pass |
| `Conversation.SendGuards` | backend/services/ai_chat.py:56-64 | an unknown session or creator yields one error message, changes no table and does not ask the model |
| `Conversation.SendSaves` | backend/services/ai_chat.py:66-126 | a turn saves the full user message then the assistant turn (the error text on failure), reads the history before saving, and sets the title to `user_message[:80]` if and only if the history was empty |
| `Conversation.Ask` | backend/services/ai_chat.py:74-95 | the request is the system prompt over the context built from the first 500 characters of the message and the catalog of the creator's items queried from the content table, the semantic search running over the creator's own vector store, and the turn list |
| `Conversation.TurnCatalog` | backend/services/ai_chat.py:249-262 | the catalog of a turn lists exactly the items of the session creator's platforms, newest first, each once; it is "No content available." if and only if the creator has no item |
| `Conversation.ChatService.SendMessage` | backend/services/ai_chat.py:48-126 | the tables afterwards and the yielded texts are those of the turn specification; the model is asked if and only if the guards pass, with the specified request |
| `Conversation.ChatService.Converse` | backend/services/ai_chat.py:66-126 | both messages are appended, the title is set on a first exchange, and the request is the specified one |
| `Conversation.ChatService.Answer` | backend/services/ai_chat.py:97-126 | the reply is relayed, saved as the assistant turn, and the session retitled when it was the first exchange |
| `Batching.NumBatchesBounds` | backend/services/knowledge.py:142-143 | `(n + size - 1) // size` is the ceiling of `n / size`: zero batches if and only if no items, enough batches to hold every item, and no empty batch |
| `Batching.BatchesPartition` | backend/services/knowledge.py:143-147 | the batches `s[k*size : k*size+size]` are contiguous, in order, and together are exactly the items; every batch but the last has exactly `size` items and none is empty |
| `Summaries.VideoTextsFacts` | backend/services/knowledge.py:150-160 | the `i`-th description of a batch opens with `VIDEO i+1 (ID: id)` and shows the title when there is one |
| `Summaries.UnfenceBlock` | backend/services/knowledge.py:175-178 | a reply fenced as a code block with a tag line yields its body, stripped |
| `Summaries.NewSummary` | backend/services/knowledge.py:183-192 | with a parsed answer an item gets its mapped summary, else (pipeline) `caption[:200]` or "No summary", (post-scrape) `(caption or "")[:200]`; without one, exactly `(caption or title or "")[:200]` |
| `Summaries.PendingFacts` | backend/services/knowledge.py:134 | the pending positions are exactly the items with no summary, each once, in order |
| `Summaries.SummarizedKeeps` | backend/services/knowledge.py:183-194 | an item that had a summary is left untouched, and no item changes except in its summary |
| `Summaries.SummarizedPending` | backend/services/knowledge.py:145-194 | the `j`-th unsummarised item is item `j % 10` of batch `j / 10` and gets the summary that batch's outcome gives it |
| `Summaries.StepsPauses` | backend/services/knowledge.py:202-204 | both loops sleep between batches and never after the last (`batches - 1` sleeps); the post-scrape hook reports no progress |
| `Summaries.StepsProgresses` | backend/services/knowledge.py:134-140 | the pipeline reports one event per batch, or the single `1.0` event when every item already has a summary; the values rise strictly and the last is exactly 1.0 |
| `Summaries.StepsUpToProgresses` | backend/services/knowledge.py:196-200 | batch `k` reports `(k+1)/total` |
| `Summaries.PendingPositions` | backend/services/knowledge.py:134 | the loop collects exactly the pending positions |
| `Summaries.DescribeBatch` | backend/services/knowledge.py:150-160 | the loop builds exactly the batch's descriptions |
| `Summaries.BatchItems` | backend/services/knowledge.py:146-147 | the batch read from the partly summarised table is batch `k` of the unsummarised items as they were |
| `Summaries.ApplyOutcome` | backend/services/knowledge.py:183-194 | applying a batch's outcome summarises exactly that batch's items |
| `Summaries.ItemSummary` | backend/services/knowledge.py:183-192 | an unsummarised item gets the specified new summary |
| `Summaries.SummarizeBatch` | backend/services/knowledge.py:145-194 | one batch: described, answered, applied |
| `Summaries.SummarizeVideos` | backend/services/knowledge.py:130-204 | both loops (`_generate_video_summaries` and `generate_summaries_for_new_items`) leave the table as specified and emit exactly the specified progress events and sleeps |
| `Summaries.BatchEvents` | backend/services/knowledge.py:196-204 | batch `k` reports `(k+1)/total` with count `min(start+size, n)` (pipeline only) and sleeps unless it is the last |
| `KnowledgeService.FirstDocument` | backend/services/knowledge.py:339-344 | the lookup finds the first row of that creator and kind, or there is none |
| `KnowledgeService.UpsertedRows` | backend/services/knowledge.py:346-357 | an existing (creator, type) row gets the new content, the stamp `now` and its version plus exactly 1, with no other row changed; otherwise exactly one row stamped `now` with version 1 is appended |
| `KnowledgeService.UpsertedKeepsOnePerKind` | backend/services/knowledge.py:335-358 | saving never creates a second row for the same (creator, type) |
| `KnowledgeService.UpsertedLookup` | backend/services/knowledge.py:335-358 | after saving, the prompt composer reads the new content for that kind and the old content for every other kind |
| `KnowledgeService.KnowledgeBase.SaveKnowledge` | backend/services/knowledge.py:335-358 | `_save_knowledge` leaves the knowledge table upserted, keeps one row per (creator, type), and changes no other table |
| `KnowledgeService.PlatformsOf` | backend/services/knowledge.py:33 | the creator's platforms are exactly the platform rows linked to the creator |
| `Catalog.QueryFacts` | backend/services/knowledge.py:38-42 | the item query (the same query as ai_chat.py:255-259) returns exactly the items of the creator's platforms, newest first, each once |
| `KnowledgeService.WriteBackSummaries` | backend/services/knowledge.py:183-194 | committing the summarised items changes summaries only: other fields and other rows stay as they were, and every updated item lands in the table |
| `KnowledgeService.TopicLinesFacts` | backend/services/knowledge.py:210-215 | the summary list has one line per item with some text (summary, else caption, else title) and no other line |
| `KnowledgeService.SummaryList` | backend/services/knowledge.py:210-215 | the loop builds exactly that list |
| `KnowledgeService.StatsFacts` | backend/services/knowledge.py:242-245 | the averages are 0 when there are no items, and otherwise the floors of the exact means, never above the largest value |
| `KnowledgeService.TopItemsFacts` | backend/services/knowledge.py:248 | the top sample is the 15 most viewed items (all when fewer), in descending views; no item left out has more views than one kept |
| `KnowledgeService.Middle` | backend/services/knowledge.py:289-290 | the middle slice `by_views[max(0, len//2-2) : len//2+3]` has at most 5 items, all from the ranking |
| `KnowledgeService.CandidatesFacts` | backend/services/knowledge.py:285-296 | the candidates (top 5 by views, then 5 most recent, then middle 5) are at most 15 items of the list |
| `KnowledgeService.SampledFacts` | backend/services/knowledge.py:294-301 | the samples are at most 15 candidates, each with a transcript, no two with the same id; while fewer than 15 are kept, every candidate with a transcript has its id among them |
| `KnowledgeService.SampledCapped` | backend/services/knowledge.py:300-301 | once 15 samples are kept, later candidates change nothing |
| `KnowledgeService.PickSamples` | backend/services/knowledge.py:294-301 | the deduplicating loop with its `break` returns exactly the specified samples |
| `KnowledgeService.SampleTextsFacts` | backend/services/knowledge.py:306-311 | one transcript text per sample, in order |
| `KnowledgeService.SampleTextEnds` | backend/services/knowledge.py:308-311 | each sample text ends with its transcript cut to 2000 characters |
| `KnowledgeService.ListSampleTexts` | backend/services/knowledge.py:306-311 | the loop builds exactly those texts |
| `KnowledgeService.Analyze` | backend/services/knowledge.py:67-116 | topics, profile and style are saved in that order, each being the model's answer to its own request, the profile's request built from the saved topics; the run has no failure if and only if all three are saved |
| `KnowledgeService.AnalyzeStops` | backend/services/knowledge.py:80-111 | an exception from an analysis ends the run with only the earlier documents saved |
| `KnowledgeService.AnalyzeAllSaved` | backend/services/knowledge.py:80-111 | when all three analyses answer, all three documents are saved in order |
| `KnowledgeService.SummaryEventsProgress` | backend/services/knowledge.py:58-65 | each forwarded summary event carries half the loop's `batch_progress` |
| `KnowledgeService.AnalysisEventsRise` | backend/services/knowledge.py:67-128 | the stage events rise strictly from 0.55 to at most 1.0 |
| `KnowledgeService.TimelineRises` | backend/services/knowledge.py:48-128 | after the opening event, a run's progress values rise strictly and stay in (0, 1]; summary events stay within the first half |
| `KnowledgeService.TimelineEnds` | backend/services/knowledge.py:110-128 | a run without an exception ends with the completion event at 1.0; one that raised ends with the start event of the failing analysis; no error event once there are items |
| `KnowledgeService.OpeningAboveFirstBatch` | backend/services/knowledge.py:53-65 | the opening event (0.025) is above the first batch event if and only if there are more than 20 batches |
| `KnowledgeService.KnowledgeBase.SummarizeFound` | backend/services/knowledge.py:130-204 | the summary loop over the found items is committed to the table and emits the specified steps; other tables are unchanged |
| `KnowledgeService.KnowledgeBase.SummarizeNewItems` | backend/services/knowledge.py:360-421 | the post-scrape hook commits the summarised new items and changes nothing else |
| `KnowledgeService.KnowledgeBase.Analyses` | backend/services/knowledge.py:67-122 | the three analyses saved in order as they complete; the creator summary becomes the first 2000 characters of the profile, and `summary_generated_at` becomes `now`, only when all three succeed |
| `KnowledgeService.KnowledgeBase.GenerateAll` | backend/services/knowledge.py:24-128 | a missing creator, no platforms or no items each yield exactly one error event and change nothing; otherwise summaries are written back, the events are the specified timeline, and the documents and creator summary are saved as `Analyze` says |
| `KnowledgeService.KnowledgeBase.TopicAnalysis` | backend/services/knowledge.py:206-235 | the model is asked about the summary-line count and the first 300 lines |
| `KnowledgeService.KnowledgeBase.StyleAnalysis` | backend/services/knowledge.py:280-333 | no samples gives the fixed "Insufficient transcript data…" text without a model call; otherwise the model's answer about the sample texts |
| `Embeddings.DocumentNotBlank` | backend/services/embeddings.py:165-186 | the document begins with the bracketed platform label, so its stripped text is never empty |
| `Embeddings.DocumentTextFacts` | backend/services/embeddings.py:165-186 | label first and never blank; a caption line exactly when the caption is non-empty, cut to 2000 characters; a transcript line exactly when the transcript is non-empty and differs from the caption, cut to 4000 characters |
| `Embeddings.Truncated` | backend/services/embeddings.py:60 | one text per input, in order, each cut to its first 8000 characters |
| `Embeddings.EmbedTexts` | backend/services/embeddings.py:51-66 | no client raises the API-key error; otherwise one provider call per batch of 100 in order, the first failing call's error is raised, and the vectors are concatenated |
| `Embeddings.BatchesSent` | backend/services/embeddings.py:56-62 | each call sends at most 100 texts of at most 8000 characters, and the batches together are the texts in order |
| `Embeddings.EmbedAllElementwise` | backend/services/embeddings.py:51-66 | with a provider that embeds text by text, the result is one vector per input text, in order, computed on the truncated text |
| `Embeddings.ContentKeyInjective` | backend/services/embeddings.py:82 | distinct content ids give distinct `content_{id}` keys |
| `Embeddings.Pending` | backend/services/embeddings.py:77-105 | at most one prepared entry per item |
| `Embeddings.PendingSound` | backend/services/embeddings.py:79-105 | every prepared entry is new to the store, has no vector yet and belongs to an unmarked item |
| `Embeddings.PendingComplete` | backend/services/embeddings.py:79-105 | every unmarked item whose key is not in the store gets its entry |
| `Embeddings.PrepareEntry` | backend/services/embeddings.py:79-105 | an entry exactly when the item is unmarked, its key is new and its document is not blank; the entry holds the key, document and metadata |
| `Embeddings.PendingEntries` | backend/services/embeddings.py:77-105 | the prepared entries, in item order, are exactly `Pending` |
| `Embeddings.AttachAll` | backend/services/embeddings.py:112-113 | each entry paired with its vector, up to the shorter of the two lists |
| `Embeddings.EmbedAppendOnly` | backend/services/embeddings.py:107-121 | the old entries stay first and unchanged; new entries follow in item order, each with a vector; an error changes neither store nor items |
| `Embeddings.EmbedMarks` | backend/services/embeddings.py:107-121 | nothing pending leaves store and items as they were; a call that stores something marks every item passed in |
| `Embeddings.EmbedIdempotent` | backend/services/embeddings.py:68-121 | embedding the result again adds no entries, whatever the provider |
| `Embeddings.EmbedCovers` | backend/services/embeddings.py:68-121 | when the provider answers for every document, every unmarked item ends up in the store under its key |
| `Embeddings.NothingPendingWhenMarked` | backend/services/embeddings.py:80-81 | items that are all marked prepare nothing |
| `Embeddings.VectorStore.constructor` | backend/services/embeddings.py:39-44 | a creator without a store file has no entries |
| `Embeddings.VectorStore.EmbedContentItems` | backend/services/embeddings.py:68-121 | the new store and the returned items are those of `EmbedStep` on the old store |
| `Embeddings.SearchEntries` | backend/services/embeddings.py:132-156 | the search over a store's entries is `SearchSpec`: empty store gives no results, a query-embedding error is raised, otherwise the best `n` by similarity |
| `Embeddings.VectorStore.Search` | backend/services/embeddings.py:125-156 | the results are `SearchSpec` of the store: empty store gives no results, a query-embedding error is raised, otherwise the best `n` by similarity |
| `Embeddings.Score` | backend/services/embeddings.py:137-143 | one match per entry that has a vector, with its similarity to the query |
| `Embeddings.Matches` | backend/services/embeddings.py:137-143 | every match is an entry with a vector scored by the similarity, and every such entry is matched |
| `Embeddings.Format` | backend/services/embeddings.py:146-155 | one result per match, reporting id, document, metadata and distance `1 - sim` |
| `Embeddings.ToResults` | backend/services/embeddings.py:146-155 | one result per match, in order |
| `Embeddings.SearchEmptyStore` | backend/services/embeddings.py:132-134 | an empty store answers with no results, whatever the provider does |
| `Embeddings.RankedSound` | backend/services/embeddings.py:145-155 | exactly `min(n, number of entries with a vector)` results, each an entry with a vector at distance `1 - sim` |
| `Embeddings.RankedOrdered` | backend/services/embeddings.py:145-146 | results come in non-decreasing distance |
| `Embeddings.RankedLeftOut` | backend/services/embeddings.py:145-146 | an entry with a vector that is left out is no more similar than any result |
| `Embeddings.SearchFacts` | backend/services/embeddings.py:125-156 | a search of a non-empty store with a query vector succeeds with exactly `min(n, number of entries with a vector)` results, sorted by distance, each from a stored entry, none beaten by an entry left out |
| `YouTube.ChannelUrlIsLink` | backend/services/youtube_scraper.py:22-31 | every normalised channel address starts with `http` |
| `YouTube.ChannelUrlOfLink` | backend/services/youtube_scraper.py:24-26 | a stripped input starting with `http` is kept up to its trailing slashes, which are removed |
| `YouTube.ChannelUrlIgnoresBlanks` | backend/services/youtube_scraper.py:24 | surrounding whitespace never changes the address |
| `YouTube.ChannelUrlHandleForms` | backend/services/youtube_scraper.py:27-31 | `name`, `@name` and `/@name` all become `https://www.youtube.com/@name` |
| `YouTube.ChannelUrlFixedPoint` | backend/services/youtube_scraper.py:22-31 | normalising a normalised address again changes nothing unless it ends in a slash or a blank |
| `YouTube.SearchFacts` | backend/services/youtube_scraper.py:297-300 | `re.search` finds nothing exactly when the pattern matches nowhere, and otherwise reports the leftmost match |
| `YouTube.VideoIdIsId` | backend/services/youtube_scraper.py:290-301 | a found id is eleven characters from `[A-Za-z0-9_-]` |
| `YouTube.VideoIdNone` | backend/services/youtube_scraper.py:290-301 | no id exactly when none of the three patterns matches anywhere |
| `YouTube.VideoIdFirstPattern` | backend/services/youtube_scraper.py:292-300 | the id comes from the first of the query, embed and shorts patterns that matches, at its leftmost match |
| `YouTube.WatchUrlRoundTrip` | backend/services/youtube_scraper.py:88 | the watch link stored for an id gives that id back |
| `YouTube.ParseUploadDate` | backend/services/youtube_scraper.py:304-311 | a missing or empty date gives nothing; a parsed date is a calendar day at midnight |
| `YouTube.ParseUploadDateRoundTrip` | backend/services/youtube_scraper.py:304-311 | the eight `YYYYMMDD` digits of a day, whatever follows them, give that day back |
| `YouTube.NewEntries` | backend/services/youtube_scraper.py:61 | the filter keeps at most the listed entries |
| `YouTube.NewEntriesCounts` | backend/services/youtube_scraper.py:61 | a new entry is kept exactly as often as it is listed; a stored one is dropped |
| `YouTube.NewEntriesConcat` | backend/services/youtube_scraper.py:61 | the list comprehension keeps the listing's order: filtering a concatenation is concatenating the filtered parts |
| `YouTube.NewEntriesFacts` | backend/services/youtube_scraper.py:61-63 | the new entries are exactly the listed ones whose id is not stored, and the skipped count is the number of stored ones |
| `YouTube.RunRows` | backend/services/youtube_scraper.py:76-105 | at most one row per new entry; each row has a non-empty id, the platform and the watch link of its id |
| `YouTube.RunNotes` | backend/services/youtube_scraper.py:107-113 | every report follows an entry with an id at an index `i` with `i % 3 == 0` or the last index, and counts the rows stored so far |
| `YouTube.RunLast` | backend/services/youtube_scraper.py:107-113 | one more entry adds at most one report, exactly when it is reported |
| `YouTube.RunNotesOrdered` | backend/services/youtube_scraper.py:76-113 | reports come in processing order |
| `YouTube.RunNotesCover` | backend/services/youtube_scraper.py:107-113 | there is a report after every entry with an id at a reporting index |
| `YouTube.RunProgress` | backend/services/youtube_scraper.py:111 | every progress fraction `(i + 1) / total` lies in `(0, 1]` |
| `YouTube.RunProgressLast` | backend/services/youtube_scraper.py:107-113 | when the last entry has an id, the last report has progress 1 |
| `YouTube.RunStep` | backend/services/youtube_scraper.py:76-113 | an entry without an id changes nothing; otherwise its row is appended and its report added exactly at a reporting index |
| `YouTube.Scrape` | backend/services/youtube_scraper.py:33-120 | the fetching and found reports come first; the new rows are the run over the unstored entries, appended to the table; `last_scraped_at` is set exactly when there was something new |
| `YouTube.StoreNew` | backend/services/youtube_scraper.py:75-113 | each new entry with an id is stored as it comes, in order, with the run's reports |
| `Instagram.IsLinkIff` | backend/services/instagram_scraper.py:24 | the link test is exactly Python's substring test for `instagram.com/` |
| `Instagram.UsernameOfLinkIsSegment` | backend/services/instagram_scraper.py:24-25 | the username taken from a link holds no `/` |
| `Instagram.UsernameOfProfileUrl` | backend/services/instagram_scraper.py:24-25 | a profile link, with any number of trailing slashes, gives its username back |
| `Instagram.UsernameIgnoresAt` | backend/services/instagram_scraper.py:26 | a leading `@` never changes the username of a handle |
| `Instagram.UsernameOfName` | backend/services/instagram_scraper.py:26 | a plain stripped name without `@` is its own username |
| `Instagram.RetryFacts` | backend/services/instagram_scraper.py:119-135 | at most three attempts; the pauses are `5 * 2^j` after each failed attempt `j` but the last; the result is the deciding attempt's, and a failure only after the last allowed attempt |
| `Instagram.RetryOutcome` | backend/services/instagram_scraper.py:119-135 | success exactly when one of the three attempts succeeds; the pauses are a prefix of `[5, 10]` |
| `Instagram.ScrapeWithRetry` | backend/services/instagram_scraper.py:109-137 | the attempt loop yields the pauses and the result of `Retry` |
| `Instagram.FirstFormat` | backend/services/instagram_scraper.py:147-151 | a parsed timestamp is a valid date and time |
| `Instagram.ParseTimestampText` | backend/services/instagram_scraper.py:146-151 | a string gives the result of the first of the three formats that accepts it, and nothing when none does |
| `Instagram.ParseTimestampDay` | backend/services/instagram_scraper.py:147-149 | a `%Y-%m-%d` day is read back as that day, the two formats with a time rejecting it |
| `Instagram.ReelDraftTranscript` | backend/services/instagram_scraper.py:64-79 | the transcript is the reel's own when it has one and the caption otherwise; the source is `instagram_captions` exactly when it has one; no title; the external id is shortCode or id |
| `Instagram.NewReels` | backend/services/instagram_scraper.py:59-62 | the filter keeps at most the fetched reels |
| `Instagram.NewReelsCounts` | backend/services/instagram_scraper.py:59-62 | a reel with an unstored external id is kept exactly as often as it was fetched; any other is dropped |
| `Instagram.NewReelsConcat` | backend/services/instagram_scraper.py:59-62 | the filter keeps the fetch order: filtering a concatenation is concatenating the filtered parts |
| `Instagram.NewReelsFacts` | backend/services/instagram_scraper.py:59-62 | the new reels are exactly the fetched ones whose external id is not stored |
| `Instagram.ProcessRows` | backend/services/instagram_scraper.py:58-82 | the rows are the drafts of the new reels, one each, in fetch order |
| `Instagram.ProcessNotes` | backend/services/instagram_scraper.py:84-89 | every report follows a new reel at an index divisible by five and gives `(i + 1) / len(raw)` |
| `Instagram.ProcessLast` | backend/services/instagram_scraper.py:84-89 | one more reel adds at most one report, exactly when it is new and its index is divisible by five |
| `Instagram.ProcessNotesOrdered` | backend/services/instagram_scraper.py:59-89 | reports come in the order of the reels |
| `Instagram.ProcessNotesCover` | backend/services/instagram_scraper.py:84-89 | there is a report after every new reel at an index divisible by five |
| `Instagram.ProcessStep` | backend/services/instagram_scraper.py:59-89 | a stored reel changes nothing; a new one appends its draft and, at an index divisible by five, its report |
| `Instagram.ProcessReels` | backend/services/instagram_scraper.py:58-89 | the loop's drafts and reports are those of `Process` |
| `Instagram.Scrape` | backend/services/instagram_scraper.py:28-107 | a failed fetch is raised with nothing stored and no timestamp; otherwise the new rows are appended to the table, the reports are the scraping, processing and loop reports, and `last_scraped_at` is set even when nothing was new |
| `Instagram.ScrapeUser` | backend/services/instagram_scraper.py:39-107 | as `Scrape`, once the username is known |
| `Instagram.StoreReels` | backend/services/instagram_scraper.py:58-100 | the drafts of the new reels are appended to the table together, with the loop's reports |
| `Scraping.ExternalIdsOf` | backend/services/youtube_scraper.py:52-55 | exactly the external ids of the platform's stored rows |
| `Scraping.ContentTable.ExternalIds` | backend/services/instagram_scraper.py:43-46 | the platform's stored external ids, with the table unchanged |
| `Scraping.ContentTable.Insert` | backend/services/youtube_scraper.py:102-104 | the row gets the next key and is appended; nothing else changes |
| `Scraping.ContentTable.InsertAll` | backend/services/instagram_scraper.py:92-100 | the rows get consecutive keys and are appended in order |
| `ChatRouter.RFind` | backend/routers/chat.py:158 | the last position of the character, or -1 when it does not occur |
| `ChatRouter.ExtensionShape` | backend/routers/chat.py:158 | an extension is empty or a suffix of the name made of one dot and no further dot or slash |
| `ChatRouter.ExtensionOfName` | backend/routers/chat.py:158 | a name with a stem and a one-dot extension gives that extension, whatever directory precedes it |
| `ChatRouter.ExtensionOfDotFile` | backend/routers/chat.py:158 | a name with no dot after its leading dots, such as `.bashrc`, has no extension |
| `Common.ThousandsDigits` | backend/services/ai_chat.py:273 | the `:,` format differs from `str(n)` only by its commas: removing them gives the plain decimal form |
| `ChatRouter.Named` | backend/routers/chat.py:153-155 | exactly the uploads that have a file name, in order |
| `ChatRouter.CheckAllStops` | backend/routers/chat.py:152-181 | once a file is refused, the files after it are not looked at |
| `ChatRouter.CheckAllOk` | backend/routers/chat.py:152-181 | the files pass exactly when none is refused |
| `ChatRouter.CheckAllFirstRefusal` | backend/routers/chat.py:152-181 | the rejection is the first refused file's |
| `ChatRouter.CheckFilesAttachments` | backend/routers/chat.py:152-181 | the attachments are the named files in upload order, each with its own name and decoded text, an allowed lower-cased extension and a size within the limit |
| `ChatRouter.ValidationFacts` | backend/routers/chat.py:137-187 | the length is checked first, then the count, then the files; the message goes through exactly when none fails, and with `None` attachments exactly when no file has a name |
| `ChatRouter.ValidationFirstRefusal` | backend/routers/chat.py:152-181 | with an allowed length and count, the rejection is that of the first file failing its checks |
| `ChatRouter.ValidateUpload` | backend/routers/chat.py:137-181 | the loop that stops at the first refusal computes `Validation` |
| `ChatRouter.EventOfFrame` | backend/routers/chat.py:108-111 | a text or error frame is its head, the JSON string body and the tail, and its body decodes back to the content |
| `ChatRouter.EventOfText` | backend/routers/chat.py:108 | a client reads each chunk back exactly from its text frame |
| `ChatRouter.EventOfError` | backend/routers/chat.py:111 | a client reads the error text back exactly from its error frame |
| `ChatRouter.FrameIsOneEvent` | backend/routers/chat.py:108-111 | a text or error frame holds no line break before its closing blank line, whatever the chunk holds |
| `ChatRouter.FramesOrder` | backend/routers/chat.py:99-112 | the heartbeat comes first and the done frame last and nowhere else; between them the chunks' text frames in order, then the error frame when the stream raised |
| `ChatRouter.FramesDecode` | backend/routers/chat.py:99-112 | a client reads back exactly the heartbeat, the chunks in order, the error and the end |
| `ChatRouter.Stream` | backend/routers/chat.py:183-193 | the generator yields exactly `Frames` |
| `ChatRouter.SendMessage` | backend/routers/chat.py:88-122 | an over-long body is refused and an unknown session gets 404, both changing nothing; otherwise the service's turn is stored and its chunks relayed as frames |
| `ChatRouter.SendMessageWithFiles` | backend/routers/chat.py:125-203 | an unknown session gets 404, then a refused message gets its rejection, both changing nothing; otherwise the turn runs with the attachments and its chunks are relayed as frames |
| `ChatRouter.Refs` | backend/routers/chat.py:275 | each platform's type and handle, in order |
| `ChatRouter.CompareCreators` | backend/routers/chat.py:218-284 | the loop over the ids computes `Compare` |
| `ChatRouter.Known` | backend/routers/chat.py:232-235 | exactly the ids that name a creator |
| `ChatRouter.RowsOfKnown` | backend/routers/chat.py:231-284 | one row per known id, in id order; unknown ids leave no row |
| `ChatRouter.DivFloor` | backend/routers/chat.py:277-279 | `s / n` is the integer part of the mean |
| `ChatRouter.MeanFloor` | backend/routers/chat.py:255-279 | the average is at most the mean and less than one below it |
| `ChatRouter.RowShape` | backend/routers/chat.py:237-282 | a row names its creator and lists its platforms; a creator without platforms gets zeros and no summary |
| `ChatRouter.RowFigures` | backend/routers/chat.py:251-280 | the count is the number of the platforms' items, the total is the sum of their views, each average is the integer part of the mean, and everything is 0 over no items |
| `ChatRouter.IntToStringNoComma` | backend/routers/chat.py:227 | a rendered integer holds no comma |
| `ChatRouter.PieceOfInt` | backend/routers/chat.py:227 | a rendered integer is read back as itself |
| `ChatRouter.CollectIds` | backend/routers/chat.py:227 | pieces that each read as an id give those ids, in order |
| `ChatRouter.IdsRoundTrip` | backend/routers/chat.py:227 | ids joined with commas are read back as they were written |
| `ChatRouter.CollectSkipsBlank` | backend/routers/chat.py:227 | a blank piece is skipped wherever it stands |
| `ChatRouter.IdsTrailingComma` | backend/routers/chat.py:227 | a trailing comma, with or without blanks after it, changes nothing |
| `ChatRouter.CompareRefusal` | backend/routers/chat.py:227-235 | a piece that is not an integer is a server error; otherwise the request is refused exactly when fewer than two ids are given, never because of unknown ids |
| `Dates.KeyIsChronological` | backend/services/knowledge.py:286 | the numeric sort key of a valid date-time orders it chronologically, so sorting by the key newest first is sorting by timestamp |
| `Dates.Strptime` | backend/services/youtube_scraper.py:309 | whatever `datetime.strptime` accepts is a valid calendar date-time |
| `Dates.CompactDateRoundTrip` | backend/services/youtube_scraper.py:309 | the `%Y%m%d` text of a day parses back to that day |
| `Dates.DashedDateRoundTrip` | backend/services/instagram_scraper.py:147-149 | the `%Y-%m-%d` text of a day parses back to that day |
| `Dates.TimedFormatsRejectDay` | backend/services/instagram_scraper.py:147-149 | neither format with a time of day accepts a bare `%Y-%m-%d` day |
| `Dates.StrptimeCompactIsDay` | backend/services/youtube_scraper.py:309 | whatever `%Y%m%d` parses is a day at midnight |
| `Json.EscapeChar` | backend/routers/chat.py:108 | a character is written as a non-empty run of printable ASCII |
| `Json.Escape` | backend/routers/chat.py:108-111 | the body of a JSON string literal is printable ASCII |
| `Json.UnescapeEscape` | backend/routers/chat.py:108-111 | reading the body of a literal gives back the string it was written from |
| `Json.QuoteIsPrintable` | backend/routers/chat.py:108-111 | a whole literal, quotes included, is printable ASCII and so holds no line break |
| `Conversation.ChatService.constructor` | backend/services/ai_chat.py:21-25 | the service starts from the given sessions and messages, with the standard prompt wording |
| `Conversation.ChatService.Save` | backend/services/ai_chat.py:66-120 | the message is appended to the table; the sessions are unchanged |
| `Conversation.ChatService.Retitle` | backend/services/ai_chat.py:123-126 | only the title of the one session changes |
| `KnowledgeService.KnowledgeBase.constructor` | backend/services/knowledge.py:21-22 | the service starts from the given creators, platforms and items, with no knowledge rows |
| `Scraping.ContentTable.constructor` | backend/models/database.py:40-41 | an empty table whose first key is 1 |
| `Models.OfPlatforms` | backend/services/knowledge.py:38-42 | exactly the items of the given platforms, in table order |
| `Models.FloorAverageFacts` | backend/services/knowledge.py:240-244 | the average is 0 over no items and otherwise the integer part of the exact mean, between the smallest and largest value |
| `Common.Cap` | backend/services/ai_chat.py:193-200 | a text within the limit is kept; a longer one is cut to the limit and the marker appended |

## Left out

- **Outside services:**
  - Language-model calls (`messages.stream` and `messages.create`) are not modelled. Their
    answers are parameters (`Reply`, `Ask`, analyst functions).
  - OpenAI embeddings and Whisper are not modelled.
  - The Apify actor, yt-dlp and youtube-transcript-api are not modelled. The models see
    only their results or raised errors.
- **Floating point:**
  - `_cosine_similarity`, including its zero-norm case, is not modelled. Similarity is an
    arbitrary function to `real`.
  - Vectors are sequences of `real`.
  - Durations are opaque text.
  - Progress fractions are exact rationals where the code computes Python floats. Float
    division is monotone and exact at the ends, so the rising order, the bounds and the
    final 1.0 carry over for any number of batches or items below 2^52:
    - Summaries.StepsProgresses and Summaries.StepsUpToProgresses: `(k + 1) / total` as an
      exact `real` (knowledge.py:196).
    - KnowledgeService.SummaryEventsProgress, KnowledgeService.AnalysisEventsRise and
      KnowledgeService.TimelineRises: `batch_progress * 0.5` and the constants 0.025, 0.55 to
      1.0 as exact `real`s (knowledge.py:56, 64). KnowledgeService.OpeningAboveFirstBatch
      holds for floats too: `0.5 * (1 / 20)` and `0.025` round to the same double.
    - YouTube.RunProgress, YouTube.RunProgressLast and Instagram.ProcessNotes: the scrapers'
      `(i + 1) / len(...)` as an exact `real`.
  - ChatRouter.MeanFloor, ChatRouter.RowFigures and Models.FloorAverageFacts: SQLite's `AVG`
    is a double and `int()` truncates it (chat.py:255-279); the model takes the floor of the
    exact mean. The two agree while the sum of the column stays below 2^53.
- **Search round trip:** the claim that searching for an item's own document ranks that
  item first depends on the provider and the cosine maths, so it is not stated.
- **Database:** SQLModel/SQLite sessions, commits and `refresh` are not modelled. Tables
  are sequences in insertion order, and each query the services run is a function over
  them (`Catalog.Query`, `Conversation.SessionMessages`, `Conversation.History`). Primary keys are
  handed out in insertion order by `Scraping.ContentTable`.
- **Store file I/O:** reading and writing the JSON store file, and
  `delete_creator_collection`, are not modelled. The store is the `entries` field.
- **Concurrency:** async execution, `asyncio.to_thread`, the streaming generators'
  suspension and background tasks are not modelled. Streams are sequences of chunks or
  frames.
- **Clocks:** `asyncio.sleep` becomes the list of pauses. The clock reading `now` is a
  parameter of `KnowledgeService.KnowledgeBase.GenerateAll`, `Analyses` and
  `SaveKnowledge`: it stamps `summary_generated_at` and each saved document's
  `generated_at`. One run uses one instant for all its stamps, where the code reads the
  clock at each save, and the model does not tell `datetime.now(UTC)` (aware) from
  `datetime.utcnow` (naive, the default of a new document). The scrapers'
  `last_scraped_at` becomes a flag saying that the stamp was set.
- **Logging:** `logger` calls are not modelled.
- **Not part of the modelled core:**
  - WebSocket progress registry, scheduler, CRUD routers, the migration script, and
    `main.py`/`config.py`. Configuration values appear only as named constants.
  - `create_session`, `get_sessions`, `generate_creator_summary` and
    `_format_item_summary` of the chat service.
  - The router's `create_chat_session`, `list_chat_sessions`, `get_chat_messages` and
    `delete_chat_session`.
  - `scrape_single_video`, `_get_transcript`, `_download_audio` and `_extract_info` of the
    YouTube scraper. The transcript of a video is the `transcripts` parameter.
  - The `max_videos` cut of `_extract_flat_video_list`. The listing is the `flat`
    parameter.
- **Text case:** `str.lower()` and `str.title()` map ASCII letters only. A non-ASCII
  character counts as a non-word character for the `\b` of the keyword pattern.
- **Dates:** `strftime`/`strptime` are modelled for the digit shapes of the formats used
  (`%Y %m %d %H %M %S %f` and literals) and calendar validity, but not time zones or locale.
  `datetime.fromtimestamp` for numeric Instagram timestamps is the `fromTimestamp`
  parameter.
- **Reel video URL:** the `_video_url` attribute that the Instagram scraper attaches to an
  item and removes before saving is not modelled.
- **Router `except` branch:** `ChatRouter.Stream` and `ChatRouter.Frames` model both
  endings of the event stream. `ChatRouter.SendMessage` and
  `ChatRouter.SendMessageWithFiles` always end normally, because the chat service catches
  its own errors and yields them as text.
- Embeddings.VectorStore.Search and Embeddings.SearchEntries: take the result count `n` as a natural number. Python's
  slice `scored[:n]` with a negative `n`, which drops from the end, is not modelled. The
  only caller passes 5.
