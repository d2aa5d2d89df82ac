# Documentation search pipeline and lean-level content services, modelled in Dafny

This project models the core of a Python system with two halves.

The first half is a document search service. The ingestion pipeline lists a GitHub repository's documents and downloads them. It splits their text into sentence-packed chunks, embeds them, and keeps them in a FAISS inner-product index with a JSON metadata file. The metadata records, per file, a hash, so that unchanged files are skipped on the next run. A FastAPI route searches the index and filters the hits by score, repository and file type.

The second half is a set of content helpers:

- a news agent that writes a headlines segment and a context segment from fetched articles;
- a streaming conversation with a chat model;
- the "lean" content model: axes of five levels, each with a z-score from −2 to +2;
- the mock content service and the provider-backed content service that turn a generation request into a web component;
- small shared utilities.

Each source file in the core is one Dafny module. Textually identical copies of a file share one module:

- `src/agents/news_agent.py` and `src/core/agents/news_agent.py`;
- `src/core/services/lean.py` and `src/api/models/lean.py`;
- the service classes of `src/core/services/content_service.py` and `src/web/services/content_service.py`.

The modules are:

- `Wrappers`: Option and Result.
- `Text`: the Python `str` operations the code relies on.
- `Paths`: `pathlib` suffix, stem and name.
- `DocProcessor`: chunking, file processing, repository file listing.
- `Store`: the `VectorStore` class.
- `Pipeline`: `process_repository` and `main_async`.
- `SearchRoute`: the search endpoints.
- `NewsAgent`, `Conversation`, `Lean`, `ContentService`, `Utils`.

Collaborators the code calls but does not define are parameters of the model:

- the embedding model, PDF/DOCX/Markdown extraction, file hashing, FAISS nearest-neighbour search;
- HTTP, the news search service, the chat model client, `json.dumps`, the clock.

Where the code updates an object in place, the model is a class with `modifies` clauses: `VectorStore` and `AgentConversation`. Loops in the source are methods with loop invariants. Each method is proved equal to a specification function, and the properties are lemmas about those functions.

## Model

| member | source | states |
|---|---|---|
| Text.StripEmptyIffBlank | src/web/routes/search.py:119-120 | `s.strip()` is empty exactly when every character of `s` is Python whitespace |
| Store.EmbeddedFacts | src/pipeline/vector_store.py:92-99 | only chunks carrying an embedding are kept, and every such chunk is kept |
| Store.EmbeddedAll | src/pipeline/vector_store.py:92-99 | when every chunk carries an embedding, nothing is dropped |
| Store.KeepFacts | src/pipeline/vector_store.py:143-150 | after `update_file`'s filter, a chunk remains exactly when it belonged to another file or another repository |
| Store.KeepAll | src/pipeline/vector_store.py:143-154 | when the filter removes nothing, the chunk list is unchanged |
| Store.RecordKeepsValid | src/pipeline/vector_store.py:115-134 | recording one chunk keeps the metadata accounting for every chunk ever added: files listed once per repository, keys present |
| Store.RecordAllKeepsValid | src/pipeline/vector_store.py:115-134 | the metadata loop over a whole batch keeps that accounting invariant |
| Store.RecordAllFiles | src/pipeline/vector_store.py:116-122 | a file key is untouched by a batch without chunks of that file; with chunks, its count grows by the batch's number of them |
| Store.RecordAllRepos | src/pipeline/vector_store.py:124-134 | a repository's chunk total grows by exactly the batch's chunks of that repository |
| Store.RecordAllHash | src/pipeline/vector_store.py:116-122 | after a batch, the stored hash of a file is the hash its chunks carry |
| Store.RecordAllMonotone | src/pipeline/vector_store.py:115-134 | recording never removes a file key or a repository and never lowers a count |
| Store.HitsInFacts | src/pipeline/vector_store.py:195-202 | there are no more results than hits, and each result is a stored chunk with the score of a hit naming its row |
| Store.HitsInRanked | src/pipeline/vector_store.py:195-202 | the results are exactly the hits naming a stored row, at increasing positions (FAISS rank order), each paired with its chunk and score; padding rows (-1) are dropped and every valid hit is kept |
| Store.HitsInPositions | src/pipeline/vector_store.py:195-202 | builds the increasing list of valid hit positions that the results follow one for one |
| Store.RankMapStep | src/pipeline/vector_store.py:198-200 | one more hit extends that position list exactly when it names a stored row |
| Store.SearchBound | src/pipeline/vector_store.py:185-202 | at most `k` results, and no more results than there are stored chunks |
| Store.SearchDistinctRows | src/pipeline/vector_store.py:185-202 | when the index names each stored row at most once, as a flat index does, no two results come from the same stored row |
| Store.NoDupCard | src/pipeline/vector_store.py:130-132 | a duplicate-free file list has as many elements as its set |
| Store.AddRowsMatches | src/pipeline/vector_store.py:97-113 | adding the embedded rows keeps the index aligned with the chunk list, row for row |
| Store.RebuiltMatches | src/pipeline/vector_store.py:167-183 | rebuilding from the kept chunks gives an index aligned with them, of the same dimension |
| Store.VectorStore.constructor | src/pipeline/vector_store.py:51-57 | a fresh store has no index, no chunks and empty metadata, and is valid |
| Store.VectorStore.AddChunks | src/pipeline/vector_store.py:86-136 | appends the embedded chunks in order, adds their rows (creating the index on first use), records them in the metadata, keeps `Valid`; with none embedded nothing changes |
| Store.VectorStore.RecordChunks | src/pipeline/vector_store.py:115-134 | the metadata loop equals `RecordAll` over the chunks |
| Store.VectorStore.RebuildIndex | src/pipeline/vector_store.py:167-183 | the index becomes the flat index of the current chunks, or none when no chunk has an embedding |
| Store.VectorStore.UpdateFile | src/pipeline/vector_store.py:138-165 | removes every chunk of that file in that repository, appends the new embedded chunks, rebuilds the index, records the new chunks, keeps `Valid` |
| Store.VectorStore.Search | src/pipeline/vector_store.py:185-202 | no index or no chunks gives no results; otherwise the chunks at the neighbour rows for `min(k, len)` |
| Store.VectorStore.GetFileStatus | src/pipeline/vector_store.py:204-215 | "new" iff the key is absent, "updated" iff the stored hash differs, "unchanged" iff it is equal |
| Store.VectorStore.GetStats | src/pipeline/vector_store.py:217-234 | in a valid store the index size equals the chunk count; one entry per stored repository |
| Store.StatsCountDistinctFiles | src/pipeline/vector_store.py:228-232 | a repository's file count is the number of distinct source files ever added to it |
| DocProcessor.SplitSentences | src/pipeline/doc_processor.py:101 | `re.split(r'[.!?]+')` gives at least one piece and no piece holds a terminator |
| DocProcessor.SplitSentencesRebuild | src/pipeline/doc_processor.py:101 | joining the pieces gives the text with every terminator removed, and there is one piece more than there are maximal runs of terminators |
| DocProcessor.SplitSentencesJoin | src/pipeline/doc_processor.py:101 | `"".join` of the pieces is the text without its terminators |
| DocProcessor.SplitSentencesCount | src/pipeline/doc_processor.py:101 | the number of pieces is the number of terminator runs plus one |
| DocProcessor.BlankSentences | src/pipeline/doc_processor.py:101 | splitting blank text gives only blank pieces |
| DocProcessor.ScanStepEmits | src/pipeline/doc_processor.py:107-135 | a non-blank sentence emits the stripped buffer exactly when the buffer is non-empty and the two word counts exceed 100; the buffer is then reseeded with the two raw sentences before it and the sentence; an extended buffer stays within 100 words |
| DocProcessor.ScanInvariant | src/pipeline/doc_processor.py:103-135 | the packing loop keeps every emitted chunk trimmed and every sentence seen so far contained in some chunk or in the buffer |
| DocProcessor.ChunkContentsCover | src/pipeline/doc_processor.py:95-154 | blank text gives no chunks; every chunk is stripped; every non-blank sentence appears inside some chunk |
| DocProcessor.FlushAll | src/pipeline/doc_processor.py:137-154 | the final flush keeps chunks trimmed and loses no sentence |
| DocProcessor.AppendChunk | src/pipeline/doc_processor.py:116-129 | the appended chunk takes the next index, so the list stays the chunks of the emitted contents |
| DocProcessor.ChunkFragment | src/pipeline/doc_processor.py:108-135 | one fragment: a blank one is skipped, an overflowing one emits the buffer as the next chunk and reseeds it with the two raw preceding fragments, any other extends the buffer, as `ScanStep` specifies |
| DocProcessor.ScanFragments | src/pipeline/doc_processor.py:102-135 | the loop over all fragments ends in the state `Scan` specifies, with one chunk per emitted content |
| DocProcessor.ChunkText | src/pipeline/doc_processor.py:95-154 | the loop method yields the chunks `ChunkContents` specifies, with ids `repo_path_index` |
| DocProcessor.ChunkIdsDistinct | src/pipeline/doc_processor.py:116 | chunk ids of one file differ by index |
| DocProcessor.FormatOf | src/pipeline/doc_processor.py:158-168 | PDF iff `.pdf`, DOCX iff `.docx`/`.doc`, Markdown iff `.md`/`.markdown`, otherwise unsupported |
| DocProcessor.ProcessFile | src/pipeline/doc_processor.py:156-184 | an unsupported suffix gives no chunks; otherwise the chunks of the extracted text, each with the embedding the model gives it |
| DocProcessor.EmbedChunks | src/pipeline/doc_processor.py:176-182 | the embedding loop sets each chunk's embedding and keeps the chunks in order |
| DocProcessor.ProcessedChunks | src/pipeline/doc_processor.py:156-184 | processed chunks keep their content, ids, file and repository, and only the embedding is added |
| DocProcessor.TreeFilesFacts | src/pipeline/doc_processor.py:236-241 | a path is listed iff it is a blob whose lower-cased name ends with an allowed suffix |
| DocProcessor.FilterTree | src/pipeline/doc_processor.py:236-241 | the tree loop equals that filter |
| DocProcessor.TryBranchesAllowed | src/pipeline/doc_processor.py:226-245 | whichever branch answers, only allowed paths are listed |
| DocProcessor.GetRepoFiles | src/pipeline/doc_processor.py:217-248 | the method tries `main` then `master` and returns the first successful listing |
| DocProcessor.RepoFilesAllowed | src/pipeline/doc_processor.py:217-248 | a non-GitHub URL lists nothing; every listed path has an allowed suffix (the default list when none is given) |
| DocProcessor.RepoFilesAsWritten | src/pipeline/doc_processor.py:233 | with `requests` unbound, every call returns the empty list |
| DocProcessor.RepoFilesCounterexample | src/pipeline/doc_processor.py:233 | a tree holding `a.md` is listed by a working client and lost as written |
| Pipeline.ShouldProcessRepo | src/pipeline/pipeline.py:64-73 | a repository runs iff it is enabled (by default) and, when targets are given, named among them |
| Pipeline.StrippedNonEmptyFacts | src/pipeline/pipeline.py:193 | every parsed target is stripped and non-empty |
| Pipeline.TargetReposFacts | src/pipeline/pipeline.py:193 | parsed targets are stripped names without commas |
| Pipeline.TargetReposJoin | src/pipeline/pipeline.py:193 | parsing the comma-join of stripped comma-free names gives the names back |
| Pipeline.BatchesFromFacts | src/pipeline/pipeline.py:116-117 | the slices from any start cover the rest in order, each of 1 to `size` items, ceil-many |
| Pipeline.BatchesFromFlatten | src/pipeline/pipeline.py:116-117 | the slices from `start` concatenate back to the rest of the list |
| Pipeline.BatchesFromSizes | src/pipeline/pipeline.py:116-117 | every slice holds between 1 and `size` items |
| Pipeline.BatchesFromCount | src/pipeline/pipeline.py:116-117 | there are `ceil((len - start) / size)` slices |
| Pipeline.BatchesCover | src/pipeline/pipeline.py:237-238 | batching covers the list exactly once, in order, with `(len + size - 1) // size` batches of 1 to `size` items |
| Pipeline.CheckBatch | src/pipeline/pipeline.py:128-145 | the check loop skips unchanged files, queues changed ones and records hash errors, as `CheckAll` specifies |
| Pipeline.CollectBatch | src/pipeline/pipeline.py:148-159 | the result loop counts non-empty lists, records exceptions, as `Collect` specifies |
| Pipeline.ProcessRepository | src/pipeline/pipeline.py:76-166 | the method equals `RepoRun`: a missing name or url raises, `force_rebuild` stores the whole repository, otherwise batches of 10 |
| Pipeline.CollectConsistent | src/pipeline/pipeline.py:148-159 | collecting keeps the counters equal to what was stored |
| Pipeline.RunBatchesConsistent | src/pipeline/pipeline.py:116-159 | every batch keeps the processed and chunk counters equal to the stored lists |
| Pipeline.CollectErrors | src/pipeline/pipeline.py:152-159 | collecting keeps the earlier errors and adds one per exception among the results zipped with a file |
| Pipeline.CheckAllErrors | src/pipeline/pipeline.py:128-146 | the check loop queues the downloaded, hashed, not-unchanged files in order, at most one per file, and records one error per failed hash |
| Pipeline.RunBatchesErrors | src/pipeline/pipeline.py:116-159 | the batches add exactly their failed hashes and processing exceptions to the error list |
| Pipeline.RepoRunErrors | src/pipeline/pipeline.py:97-164 | incremental mode: one error per failed hash and per processing exception; one repository error when the listing or the whole-repository processing raises, none otherwise |
| Pipeline.RepoRunCounters | src/pipeline/pipeline.py:88-159 | `files_updated` stays 0, `chunks_added` is the total length of the stored lists, `files_processed` their number (incremental mode) |
| Pipeline.UnchangedNeverProcessed | src/pipeline/pipeline.py:129-141 | only a file that downloaded to a non-empty path, hashed, and is not "unchanged" is handed to processing |
| Pipeline.SkippedCount | src/pipeline/pipeline.py:135-138 | `files_skipped` counts exactly the listed files the store reports unchanged |
| Pipeline.AddBatch | src/pipeline/pipeline.py:250-261 | the aggregation loop adds each dict result and counts each exception as one error |
| Pipeline.MainAsync | src/pipeline/pipeline.py:169-291 | the method equals `MainRun`: nothing selected, a zero step, or totals and an exit status |
| Pipeline.AggregateAppend | src/pipeline/pipeline.py:250-261 | aggregating two runs of results is aggregating them in sequence |
| Pipeline.AggregateBatchesFlat | src/pipeline/pipeline.py:237-261 | aggregating batch by batch is aggregating the flattened list |
| Pipeline.MainRunSequential | src/pipeline/pipeline.py:237-261 | with a positive batch size the totals equal one pass over the selected repositories, whatever the batch size |
| Pipeline.MainRunNegativeBatch | src/pipeline/pipeline.py:237 | a negative batch size runs no repository and ends with status 0 |
| Pipeline.AggregateFacts | src/pipeline/pipeline.py:250-261 | total errors are positive iff some result raised or reported errors; results are listed once per dict |
| Pipeline.ExitStatusIff | src/pipeline/pipeline.py:287-291 | the exit status is 1 iff some selected repository failed |
| SearchRoute.FilterHits | src/web/routes/search.py:132-160 | the loop skips hits below the score, outside the repository filter or outside the file-type filter, formats the rest with their extension, and stops at `limit`: its answer is the `limit`-bounded selection of passing hits (the extension function is a parameter; the handler passes the lower-cased suffix) |
| SearchRoute.SelectUpToTakes | src/web/routes/search.py:133-160 | appending passing hits until `limit` gives the passing hits in order, cut at `limit` |
| SearchRoute.SelectFrom | src/web/routes/search.py:133-156 | every kept result is the formatting of a raw hit that passes, and there are no more results than hits |
| SearchRoute.SelectAppend | src/web/routes/search.py:133-156 | filtering a concatenation of hits filters each part in turn |
| SearchRoute.SelectPrefixIsSelect | src/web/routes/search.py:133-156 | what the loop has gathered after `n` hits is the selection from the first `n` hits |
| SearchRoute.SelectUpToFull | src/web/routes/search.py:158-160 | once the first hits have yielded `limit` results, the answer is exactly those |
| SearchRoute.SelectUpToShort | src/web/routes/search.py:132-160 | with fewer than `limit` passing hits in all, the answer is all of them |
| SearchRoute.PassingMeetsFilters | src/web/routes/search.py:134-155 | a hit that passes gives a result meeting the score, repository and file-type filters, whose file type is the hit's extension |
| SearchRoute.AllPassingMeetsFilters | src/web/routes/search.py:134-145 | every passing result meets the score, repository and file-type filters |
| SearchRoute.SearchDocuments | src/web/routes/search.py:113-174 | 503 without components, 400 for a blank query, 500 with the message when search fails, otherwise the filtered results and their count |
| SearchRoute.SearchResults | src/web/routes/search.py:132-167 | a successful search returns the first `limit` passing hits in store order, each satisfying the filters |
| SearchRoute.ParamList | src/web/routes/search.py:186-187 | a missing or empty parameter gives no filter; otherwise comma-joining the split pieces gives the parameter back |
| SearchRoute.SearchDocumentsGet | src/web/routes/search.py:177-197 | with `limit` 10 and `min_score` 0.0 by default, the GET endpoint answers as the POST handler on the request built from the split parameters: 503, 400 for a blank query, 500 "Search failed: …", or the filtered body |
| SearchRoute.ListRepoFiles | src/web/routes/search.py:228-237 | the listing loop gives one entry per file key under `repo/`, with the path after the prefix |
| SearchRoute.GetRepositoryInfo | src/web/routes/search.py:213-244 | 503 without a store, 404 for a repository the stats lack, otherwise its files, their number and its chunk total |
| SearchRoute.RepoFilesCount | src/web/routes/search.py:242 | `total_files` is the number of file keys under the repository |
| SearchRoute.EntriesCount | src/web/routes/search.py:228-237 | distinct keys give distinct listing entries |
| NewsAgent.FormatArticlesForPrompt | src/agents/news_agent.py:111-123 | the formatting loop equals `ArticlesText`: numbered blocks joined by newlines |
| NewsAgent.ArticlesTextNumbered | src/core/agents/news_agent.py:114-122 | the i-th article appears in the text as block number i + 1 |
| NewsAgent.GenerateHeadlinesSegment | src/agents/news_agent.py:125-185 | the method equals `Headlines` |
| NewsAgent.HeadlinesCases | src/agents/news_agent.py:138-185 | a search failure gives the failure segment (10 s), no articles the apology (10 s); with articles, a 60 s segment covering the first six titles when none of them is `None`, and the failure segment carrying pydantic's validation error when one is |
| NewsAgent.Stories | src/agents/news_agent.py:26 | a list of optional titles validates as `stories_covered: List[str]` iff none is `None`, and then holds exactly those titles |
| NewsAgent.HeadlinesFirstEight | src/core/agents/news_agent.py:157 | only the first eight articles reach the prompt |
| NewsAgent.DeduplicateByTitle | src/agents/news_agent.py:216-222 | the dedup loop equals `Unique` |
| NewsAgent.UniqueTitles | src/core/agents/news_agent.py:216-222 | dedup keeps exactly the set of titles |
| NewsAgent.UniqueDistinct | src/core/agents/news_agent.py:216-222 | titles in the deduplicated list are pairwise distinct |
| NewsAgent.UniqueAtFirstPositions | src/agents/news_agent.py:216-222 | the deduplicated list is the subsequence of articles at first occurrences of their titles, in order |
| NewsAgent.FirstPositionsExact | src/agents/news_agent.py:219-222 | those positions are exactly the first occurrences |
| NewsAgent.GenerateContextSegment | src/core/agents/news_agent.py:187-257 | the method equals `Context` |
| NewsAgent.LeadTitles | src/agents/news_agent.py:247 | the default stories are at most three distinct titles, all from the fetched articles |
| NewsAgent.ContextStories | src/agents/news_agent.py:224-257 | with articles found, the context segment lasts 300 s and covers the focus stories; without focus stories it covers the first three unique titles, distinct and from the fetched articles, unless one of them is `None`, which gives the 30 s failure segment with the validation error |
| NewsAgent.ContextFailures | src/agents/news_agent.py:224-257 | a fetch failure or no articles gives a 30 s segment covering nothing |
| NewsAgent.HeadlinesDuration | src/core/agents/news_agent.py:149-185 | the headlines segment lasts 60 s exactly when it covers stories, else 10 s |
| NewsAgent.ContextDuration | src/agents/news_agent.py:224-257 | the context segment lasts 300 s or 30 s, and covers stories exactly when it lasts 300 s |
| NewsAgent.GenerateFullNewscast | src/core/agents/news_agent.py:259-284 | the method equals `FullNewscast` |
| NewsAgent.FullNewscastFocus | src/agents/news_agent.py:274-279 | the context segment covers the first three headline titles when the headlines covered stories, and is the unfocused context segment when they covered none |
| Conversation.PiecesConcat | src/core/agents/conversation.py:80-89 | the streamed pieces concatenate to the accumulated reply |
| Conversation.StopEndsStream | src/core/agents/conversation.py:88-89 | events after `message_stop` are ignored |
| Conversation.AfterSendGrowth | src/core/agents/conversation.py:62-94 | a send adds the user message, then the assistant reply only when the stream ended without a failure and the reply is non-empty |
| Conversation.AgentConversation.constructor | src/core/agents/conversation.py:38-45 | a new conversation has the given model and region, by default `ModelNames.SONNET_35` and `us-east-1`, and no messages |
| Conversation.AgentConversation.AddMessage | src/core/agents/conversation.py:58-60 | appends one message and changes nothing else |
| Conversation.AgentConversation.SendMessage | src/core/agents/conversation.py:62-94 | the request carries the history ending in the user message, and `max_tokens` (4096 by default); the yielded pieces are the stream's text deltas up to a stop or failure; a failure of the call or the stream is raised; the history becomes `AfterSend` |
| Conversation.FailureMidStream | src/core/agents/conversation.py:82-94 | a stream failing after some deltas raises that failure after yielding them, and stores only the user message |
| Conversation.AgentConversation.ClearHistory | src/core/agents/conversation.py:96-98 | the history becomes empty |
| Conversation.AgentConversation.GetHistory | src/core/agents/conversation.py:100-102 | returns the history |
| Lean.NewLeanLevel | src/core/services/lean.py:8-13 | a level validates iff its score is between −2 and 2 |
| Lean.NewLeanAxis | src/api/models/lean.py:15-21 | an axis validates iff its default level is between 1 and 5 |
| Lean.NewRequest | src/core/services/lean.py:36-51 | a request validates iff its level is between 1 and 5, with the field defaults |
| Lean.Lookup | src/core/services/lean.py:123-124 | a key is found iff some entry has it |
| Lean.LevelForCases | src/core/services/lean.py:118-127 | the named key wins; otherwise the positional level when there are enough, else the first; nothing only for an empty table |
| Lean.LevelForValid | src/api/models/lean.py:118-127 | on a valid non-empty axis the chosen level is a valid level |
| Lean.LookupIn | src/core/services/lean.py:123-124 | a found level is the value stored under that key |
| Lean.LookupFirst | src/api/models/lean.py:123-124 | the lookup answers the first entry with the key |
| Lean.ComponentTagIsValue | src/core/services/lean.py:140 | replacing `_` with `-` in the type's value leaves it unchanged: every value already uses dashes |
| Lean.SampleAxesWellFormed | src/core/services/lean.py:212-254 | the three sample axes have five levels with scores −2..2 in order and default 3 |
| Lean.ExperienceAndPoliticsUnnamed | src/api/models/lean.py:215-241 | the experience and political axes use none of the level names the lookup tries |
| Lean.ComplexityNamed | src/core/services/lean.py:243-252 | the complexity axis's keys are exactly the lookup's level names, in order |
| Lean.PositionalLevel | src/core/services/lean.py:125-127 | on an axis with five unnamed levels the lookup is positional |
| Lean.SampleLevelsMatchZScore | src/api/models/lean.py:113-127 | on every sample axis the chosen level's score is the request's z-score |
| Lean.MockComponentShape | src/core/services/lean.py:138-148 | the mock component has the requested type, the given HTML, the requested level and the axis's name |
| Lean.MockComponentScores | src/core/services/lean.py:138-148 | its z-score is level − 3, within [−2, 2], and its read time 3 + level, within [4, 8] |
| Lean.MockComponentTag | src/core/services/lean.py:140 | its tag is the component type's value |
| Lean.MockOutcome | src/core/services/lean.py:113-156 | the mock fails (IndexError) iff there is no axis or the first has no levels; otherwise one component, success, time 150 |
| Lean.MockHtmlArticle | src/core/services/lean.py:131-132 | article requests render an `<article-content>` element |
| Lean.MockHtmlChart | src/api/models/lean.py:133-134 | visualisation requests render a `<data-visualization>` element |
| Lean.MockHtmlOther | src/core/services/lean.py:135-136 | other types render the generic `<div>` naming the enum member and the level |
| Lean.MockGenerateAt | src/api/models/lean.py:113-156 | given the level the lookup picks, the response is exactly the one-component success |
| Lean.MockPreviewAtLevel | src/core/services/lean.py:256-270 | an out-of-range level fails validation; a valid one previews the experience axis at that position |
| ContentService.TemplateOpensWithNewline | src/core/services/content_service.py:64-117 | every component template starts with a newline |
| ContentService.ComponentInstructionDefault | src/core/services/content_service.py:139-142 | the default instruction is used iff the type has no template: comparison table, timeline, quiz, concept map |
| ContentService.LeanInstructionPresent | src/web/services/content_service.py:141-142 | a lean instruction is non-empty iff the axis is `basic-expert` |
| ContentService.GetAt | src/core/services/content_service.py:145-146 | `dict.get` answers the first entry with the key |
| ContentService.GetMissing | src/web/services/content_service.py:141-142 | `dict.get` answers the default for a missing key |
| ContentService.GetOneOf | src/core/services/content_service.py:145-146 | `dict.get` answers a stored value or the default |
| ContentService.PreparePrompt | src/core/services/content_service.py:120-159 | an IndexError iff there is no axis or no level; otherwise z = level − 3 in −2..2, the type's value, the first axis, `{}` for an empty context |
| ContentService.PromptLevel | src/web/services/content_service.py:120-129 | the prompt names one of the first axis's own levels; on a sample axis, the positional one whose score is the z-score |
| ContentService.PromptInstructions | src/core/services/content_service.py:139-146 | default instruction iff no template; lean instruction iff the complexity axis |
| ContentService.EstimateReadTime | src/core/services/content_service.py:181-185 | the read time is at least one minute |
| ContentService.ReadTimeNearest | src/web/services/content_service.py:177-181 | one minute up to 100 words; beyond that the whole number of minutes nearest to words / 200, even on a tie |
| ContentService.RoundedNearest | src/core/services/content_service.py:185 | `round` lands within half a divisor, even on a tie |
| ContentService.RoundedBeats | src/web/services/content_service.py:181 | no whole number of minutes is nearer than the rounded one |
| ContentService.ParseResponse | src/core/services/content_service.py:161-179 | an IndexError iff there is no axis; otherwise the reply's content at the requested level, z in −2..2, the article id, read time ≥ 1, the model info |
| ContentService.ParsedTag | src/web/services/content_service.py:157-175 | the parsed component's tag is the type's value |
| ContentService.GenerateOutcome | src/core/services/content_service.py:193-230 | success iff prompt and provider call succeed; success gives one component at the level with no errors, failure no components and one prefixed error; axes echoed |
| ContentService.AvailableAxes | src/web/services/content_service.py:228-270 | three well-formed axes: complexity, political, experience, in that order |
| ContentService.PreviewBuilds | src/core/services/content_service.py:276-285 | the preview request validates iff the level is in 1..5 and uses the complexity axis |
| ContentService.PreviewOutcome | src/core/services/content_service.py:276-292 | an out-of-range level fails validation; otherwise the provider's content for the level at that position, or the fallback paragraph |
| Utils.SafeFilename | src/shared/utils.py:27-30 | same length, every character in `[\w\-_.]` |
| Utils.SafeFilenameKeeps | src/shared/utils.py:30 | a character is kept iff it is safe; others become `_` |
| Utils.SafeFilenameFixpoint | src/shared/utils.py:27-30 | a name is unchanged iff already safe; the function is idempotent |
| Utils.PrefixTo | src/shared/utils.py:54 | Python's `s[:j]` is a prefix of `s` |
| Utils.TruncateFits | src/shared/utils.py:52-54 | fitting text is unchanged; longer text with a limit ≥ 3 becomes exactly the limit long: a prefix and `...` |
| Utils.TruncateSmallLimit | src/shared/utils.py:52-54 | with a limit below 3 the result is longer than the limit |
| Utils.RetryAsync | src/shared/utils.py:32-44 | at most `max_attempts` awaits; returns the first success, re-raises the last failure, returns None for a non-positive count |

## Left out

- I/O: file reading, PDF/DOCX/Markdown extraction, downloads, temporary directories, `save_index`/`load_index`, and `cleanup_temp_files`. Extraction, hashing, downloading and the listing HTTP call are function parameters.
- FAISS numerics: L2 normalisation and inner-product ranking. The nearest-neighbour search is a parameter returning row numbers and scores. The model keeps only the alignment of index rows with chunks.
- Store.VectorStore.AddChunks: requires the new embeddings to share the index's dimension, because numpy/FAISS raise on a mismatch and the model does not reproduce that exception.
- Store.VectorStore.UpdateFile: requires matching dimensions for the same reason.
- Concurrency: `asyncio.gather`, the thread pool and the async sessions are modelled as sequential runs in list order. `gather(return_exceptions=True)` results are values (`Result`), so interleaving is not modelled.
- `process_repository_async`, `get_repo_files_async`, `download_file_from_github_async` and `process_file_async` are not defined in `doc_processor.py`. `process_repository` calls them, and the model takes their outcomes as parameters.
- The incremental pipeline stores changed files with `add_chunks`, not `update_file`, so old chunks of an updated file stay in the store. The model follows the code.
- Pipeline.ProcessRepository: an exception from `add_chunks` itself is not modelled.
- Clocks: processing times, timestamps, `datetime.now()` in prompts, `generation_time_ms` (the `elapsedMs` parameter) and the retry back-off sleeps.
- The chat and news clients, the Bedrock and Gemini providers, prompt-template loading and the prompt text sent to the provider; the provider call is a parameter.
- `json.dumps` of the request context is a parameter.
- `Text.Lower` and `Utils.IsWordChar` cover ASCII only. Python's Unicode case mapping and `\w` are not modelled.
- Floating point: `round(word_count / 200)` is modelled as exact rational rounding, which agrees with Python until word counts near 2^53.
- Similarity scores are reals.
- Utils.RetryAsync: the sleeps between attempts are not modelled.
- `get_file_hash`, `ensure_directory` and `format_timestamp` in `src/shared/utils.py` are I/O or clock operations.
- The generic mock `<div>` names the component as `ComponentType.NAME`, which is how Python 3.11 and later format a `str` enum member in an f-string.
- Article fields other than the title are kept as the text they print as in the prompt (`None` prints as `None`); only the title decides de-duplication and segment validation, so only it is optional. The text of pydantic's `ValidationError` is a parameter.
- Pydantic validation of request bodies is a precondition: the search limit in 1..100, the score in 0..1, the lean level in 1..5.
- SearchRoute.GetRepositoryInfo: `files` is a set of entries rather than a list, because the store's file metadata is a map. The insertion order of `metadata["files"]`, which orders the source's list, is not modelled. `SearchRoute.ListRepoFiles` has the same gap.
- Conversation.AgentConversation.SendMessage: a caller that stops consuming the generator before the stream ends is not modelled. In the source the assistant message is then never stored. The method always runs the stream to its end, to a `message_stop` or to a failure.
- Paths.Name: a path ending in `/` gives an empty name, where `pathlib` would drop the slash first. Repository file paths never end in `/`.

## Findings

| source | as written | input that shows it | evidently intended | confidence | as-written member | corrected member |
|---|---|---|---|---|---|---|
| src/pipeline/doc_processor.py:233 | `requests.get` is called but `requests` is never imported, so a NameError is caught by the `except` and both branches fail | `get_repo_files("https://github.com/u/r")` on a repository whose tree holds `a.md` returns `[]` | the tree's matching blobs are listed (`["a.md"]`) | not executed | DocProcessor.RepoFilesCounterexample | DocProcessor.RepoFilesAllowed |
