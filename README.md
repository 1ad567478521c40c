# AI tutor core in Dafny

This project models the deterministic core of an AI tutor for a course on
systemic self-development. Students talk to the tutor through a Telegram bot.
Concepts, chapters and progress live in a Neo4j graph. Tasks and answer
checks come from a language model behind OpenRouter. The model covers:

- **Concept search.** `EnhancedCourseSearch` (module `EnhancedSearch`) validates
  the query and threshold, then routes to the native vector index or to the
  hybrid path. The hybrid path batches records, encodes them in groups of at
  most five, filters on raw similarity, weights by credibility, sorts stably
  and truncates. It also has the cosine guards and the degraded keyword
  `FallbackSearch`. `CachedSearch` is a TTL cache in front of it: keyed by
  the search parameters, bypassable, with bulk eviction of the oldest half.
- **Store post-processing.** `Neo4jClient` covers the per-chapter override of
  concept fields and the difficulty rule.
- **Records.** `Models` covers the `to_dict`/`from_dict` serialisers.
- **Dialogue.** `Conversations` covers the dialogue state and its registry.
- **Grading and streaks.** `Crew` covers tutor-crew grading with per-student
  streaks. `OpenRouter` covers task normalisation, option generation and
  template grading. `TaskChecker` covers the checking tools. `TaskAdapter`
  covers the progress classification.
- **Assistants.** `Assistant` covers keyword extraction and context building.
  `UnifiedAssistant` covers backend choice, routing, the search fallback chain
  and the three-attempt retry policy.
- **Bot handlers.** `Handlers` covers chapter-id parsing, the streak counter,
  the feedback keyboards, relabelling of shuffled options, answer buttons
  three to a row, the next-step toggles and the student counters.

Everything foreign becomes a parameter: the embedding model (`encode`, `ratio`),
the graph store (functions from queries to rows, `None` for a raised
exception), the language model (an oracle from requests to replies), JSON
parsing, the key order of a dictionary (`keyOrder`), `isoformat`/`fromisoformat`,
`str()` of non-strings (`repr`) and the clock (`now`). A Python exception becomes `None` or an explicit error result.
Mutable objects are classes that keep the source's fields, for example
`CachedSearch.CachedSearch`, `Conversations.Conversation`, `Crew.TutorCrew`,
`Handlers.UserData` and `Handlers.StudentStats`. Loops are methods proved
against specification functions, and the properties are lemmas about those
functions.

Helper modules: `Wrappers` (Option), `Values` (Python values and dictionaries),
`Text` (Python string operations: strip, split, lower/upper, `\w`, `replace`,
`int()`), `Seqs` (filters, Python slicing, chunking) and `Sorting` (a stable
descending insertion sort with its sortedness, permutation and stability
lemmas).

## Model

| member | source | states |
|---|---|---|
| EnhancedSearch.Cosine | database/enhanced_search.py:361-405 | malformed JSON strings, non-list arguments, unequal lengths and zero norms all give 0.0; otherwise the model's ratio |
| EnhancedSearch.SimilarityOfProperVectors | database/enhanced_search.py:390-405 | two lists of equal length and non-zero norm get exactly the dot-product ratio |
| EnhancedSearch.EncodeBatch | database/enhanced_search.py:346-359 | one vector per text, each the model's vector for that text; the batch fails exactly when some text fails |
| EnhancedSearch.StubSimilarityIsZero | database/enhanced_search.py:91-97 | the fallback engine's stub embeddings are empty, so any similarity against them is 0.0 |
| EnhancedSearch.DocTextEmpty | database/enhanced_search.py:477-485 | a record is skipped exactly when its title, content and example are all present and blank |
| EnhancedSearch.Score | database/enhanced_search.py:514-533 | a hit exists exactly when the similarity reaches the threshold, carries that similarity and is weighted by the record's credibility |
| EnhancedSearch.ProcessSmallBatch | database/enhanced_search.py:501-535 | appends to the caller's results the hits of the batch, and nothing when the batch encoding raises |
| EnhancedSearch.RecordHit | database/enhanced_search.py:620-656 | one record processed on its own gives at most one well-scored hit for that record, none for a blank text |
| EnhancedSearch.PerRecordWellScored | database/enhanced_search.py:619-656 | every hit of the single-threaded path comes from one of the records and passed the threshold |
| EnhancedSearch.ProcessBatch | database/enhanced_search.py:456-499 | the loop result equals the grouping specification: eligible records flushed five at a time, then the rest |
| EnhancedSearch.BufferAfterGroups | database/enhanced_search.py:477-493 | after any prefix of the batch the loop's buffer and results agree with the groups flushed so far |
| EnhancedSearch.FinalFlush | database/enhanced_search.py:496-499 | the records left in the buffer after the loop form the last group |
| EnhancedSearch.PairHitsPerRecord | database/enhanced_search.py:510-533 | when every text is encoded, each pair is scored exactly as the record alone would be |
| EnhancedSearch.GroupHitsPerRecord | database/enhanced_search.py:486-497 | when every text encodes, the groups together give the per-record hits in order |
| EnhancedSearch.BatchHitsPerRecord | database/enhanced_search.py:456-535 | when every text encodes, the five-record grouping is invisible: each record's hit once, in input order |
| EnhancedSearch.GroupHitsWellScored | database/enhanced_search.py:486-533 | every hit of `_process_batch` passed the threshold and is one of the records of its groups |
| EnhancedSearch.ResolveModel | database/enhanced_search.py:266-267 | a variant key names its model, any other name is kept; "fast" is all-MiniLM-L6-v2 |
| EnhancedSearch.NewEngine | database/enhanced_search.py:237-327 | construction fails exactly when both the requested and the backup model fail to load; workers are clamped to at most one; the vector-index flag needs a driver and a non-empty index listing |
| EnhancedSearch.BatchSize | database/enhanced_search.py:594 | at least five, and with a single worker at least the number of rows |
| EnhancedSearch.BatchesFacts | database/enhanced_search.py:594-595 | the batches cover the rows in order, each non-empty, all but the last of exactly the batch size |
| EnhancedSearch.SingleWorkerOneBatch | database/enhanced_search.py:272 | with the clamped single worker the whole row list is one batch |
| EnhancedSearch.RunBatches | database/enhanced_search.py:600-610 | the thread-pool loop concatenates the batch results in batch order |
| EnhancedSearch.RunSequential | database/enhanced_search.py:612-656 | the fallback loop gathers the per-record hits in row order |
| EnhancedSearch.SearchHybrid | database/enhanced_search.py:537-673 | the method computes the hybrid search specification: filter, gather, rank, limit; any store failure gives [] |
| EnhancedSearch.HybridEmptyStore | database/enhanced_search.py:586-588 | no rows from the store means no results |
| EnhancedSearch.Rank | database/enhanced_search.py:662-665 | the stable descending sort by weighted score cut by `[:limit]`; stated by `RankFacts` |
| EnhancedSearch.HybridSearch | database/enhanced_search.py:537-673 | the value of `_search_hybrid`; computed by `SearchHybrid` and stated by `HybridEmptyStore`, `HybridResultsWellScored` and `RankFacts` |
| EnhancedSearch.RankFacts | database/enhanced_search.py:662-665 | ranked results are sorted by weighted score, stable among equal scores, drawn from the gathered hits, as many as Python's slice keeps (negative limits included), and no hit the slice drops outweighs one it keeps |
| EnhancedSearch.HybridResultsWellScored | database/enhanced_search.py:537-673 | every hybrid result passed the threshold, is weighted by credibility, and is one of the rows the store returned for the concept query |
| EnhancedSearch.BatchesHitsPerRecord | database/enhanced_search.py:594-656 | when every text encodes, the thread-pool path and the single-threaded fallback gather the same hits |
| EnhancedSearch.GatheredWellScored | database/enhanced_search.py:599-656 | whichever path gathers them, the hits all passed the threshold and each comes from one of the returned rows |
| EnhancedSearch.GatheredPerRecord | database/enhanced_search.py:599-656 | with every text encodable the gathered hits are the per-record hits in row order |
| EnhancedSearch.FirstConceptIndex | database/enhanced_search.py:702-709 | the first listed index over Concept.combined_embedding, or none when no index qualifies |
| EnhancedSearch.IndexName | database/enhanced_search.py:695-720 | never empty; the qualifying index's name, else the first index's name, else "concept_vectors" |
| EnhancedSearch.IndexNameOfFailedListing | database/enhanced_search.py:716-720 | a listing that raises leaves the default name, as an empty listing does |
| EnhancedSearch.CandidateCount | database/enhanced_search.py:728 | k is the smaller of three times the limit and 100 |
| EnhancedSearch.IndexHits | database/enhanced_search.py:764-783 | one hit per row, with the row's score as similarity and score times credibility as weight |
| EnhancedSearch.IndexSearch | database/enhanced_search.py:675-793 | the value of `_search_with_vector_index`; computed by `SearchWithVectorIndex` and stated by `IndexResultsRanked` and `IndexFailureFallsBack` |
| EnhancedSearch.SearchWithVectorIndex | database/enhanced_search.py:675-793 | the method computes the index search specification, falling back to the hybrid search when the query raises |
| EnhancedSearch.IndexResultsRanked | database/enhanced_search.py:731-786 | when the store honours the ORDER BY, LIMIT and score filter, index results are sorted, bounded by the limit and well scored |
| EnhancedSearch.IndexFailureFallsBack | database/enhanced_search.py:788-793 | an index query that raises gives exactly the hybrid search with the same arguments |
| EnhancedSearch.EffectiveThreshold | database/enhanced_search.py:428-430 | thresholds in [0, 1] are kept, any other is replaced by 0.5 |
| EnhancedSearch.SemanticSearch | database/enhanced_search.py:407-454 | the value of `semantic_search_with_ranking`; computed by `SemanticSearchWithRanking` and stated by `SemanticSearchRouting` |
| EnhancedSearch.SemanticSearchWithRanking | database/enhanced_search.py:407-454 | the method computes the search specification; a missing or empty query gives [] |
| EnhancedSearch.SemanticSearchRouting | database/enhanced_search.py:436-451 | the index path is taken exactly when the engine found a vector index, the hybrid path otherwise, both with the corrected threshold |
| EnhancedSearch.AsWrittenStore | database/enhanced_search.py:556-735 | a store that raises on every query restricted by source type, as the invalid Cypher the source sends makes Neo4j do |
| EnhancedSearch.SourceFilterFindsNothing | database/enhanced_search.py:407-793 | against that store every search restricted by source type returns [] |
| EnhancedSearch.FilteredResultsOfRequestedTypes | database/enhanced_search.py:407-793 | against a store that applies the filter as intended, every result of a restricted search has one of the requested source types |
| EnhancedSearch.SearchTerms | database/enhanced_search.py:128-134 | exactly those of the first five whitespace tokens that are longer than three characters, with their positions |
| EnhancedSearch.WhereCondition | database/enhanced_search.py:135-140 | "1=1" without terms; otherwise one clause per term, in order, joined by " OR " |
| EnhancedSearch.ShortTokensMatchAll | database/enhanced_search.py:128-140 | a query with no token longer than three characters matches everything |
| EnhancedSearch.KeywordHit | database/enhanced_search.py:163-180 | keyword hits have the fixed similarity 0.7, weighted by credibility |
| EnhancedSearch.KeywordSearch | database/enhanced_search.py:99-188 | no driver or a failing query gives []; otherwise exactly one hit per returned row, in order, each the fixed-score hit of its row; the threshold plays no part |
| CachedSearch.UpdateLookup | database/cached_search.py:82-83 | with distinct names `dict.update` gives every argument's value to its name and keeps every other entry |
| CachedSearch.KeyOrderIrrelevant | database/cached_search.py:82-89 | the key does not depend on the order of the keyword arguments |
| CachedSearch.SearchKeyShape | database/cached_search.py:138-143 | the key object holds exactly the query, the limit, the threshold and the source types |
| CachedSearch.SearchKeyInjective | database/cached_search.py:138-143 | different searches get different keys |
| CachedSearch.IndexOf | database/cached_search.py:146 | the first position holding the key, or none when the key is absent |
| CachedSearch.Lookup | database/cached_search.py:146-147 | a lookup succeeds exactly when the key is present, with that key's entry |
| CachedSearch.Put | database/cached_search.py:164-166 | overwriting keeps the size, a new key grows the dictionary by one, and nothing but the entry is new |
| CachedSearch.PutLookup | database/cached_search.py:164-166 | after an assignment the key maps to the new entry, every other key is untouched and keys stay distinct |
| CachedSearch.Cleaned | database/cached_search.py:95-107 | the entries left by eviction; stated by `CleanedPrefix`, `CleanedFacts`, `CleanedDistinct` and `CleanedBound` |
| CachedSearch.CleanedPrefix | database/cached_search.py:95-107 | past the bound, eviction keeps a prefix of the newest-first order |
| CachedSearch.CleanedFacts | database/cached_search.py:95-107 | bulk eviction keeps `max_cache_size // 2` entries from the cache, none older than any dropped entry, equal ages in insertion order |
| CachedSearch.CleanedDistinct | database/cached_search.py:107 | eviction keeps the keys distinct and only keeps entries already present |
| CachedSearch.CleanedBound | database/cached_search.py:95-107 | one insertion past the bound never leaves more than `max_cache_size` entries |
| CachedSearch.TinyCacheEvictsAll | database/cached_search.py:106-107 | with a bound below 2 an overflow keeps nothing, not even the entry just inserted |
| CachedSearch.Trunc | database/cached_search.py:208-209 | Python's `int()` of a float truncates toward zero |
| CachedSearch.MinStamp | database/cached_search.py:199 | the smallest timestamp of a non-empty cache |
| CachedSearch.MaxStamp | database/cached_search.py:200 | the largest timestamp of a non-empty cache |
| CachedSearch.StatsOf | database/cached_search.py:184-210 | the cache statistics; computed by `CachedSearch.GetCacheStats` and stated by `StatsFacts`, `StatsAgesOrdered` and `StatsValidMeansFresh` |
| CachedSearch.StatsFacts | database/cached_search.py:184-210 | valid and expired entries partition the cache; an empty cache reports zero ages |
| CachedSearch.StatsValidMeansFresh | database/cached_search.py:37-47 | an entry counts as valid exactly when its age does not exceed the TTL |
| CachedSearch.StatsAgesOrdered | database/cached_search.py:199-209 | the newest entry is never reported older than the oldest one |
| CachedSearch.InsertKeepsOk | database/cached_search.py:164-169 | storing a correct entry and evicting keeps every cached entry equal to the engine's answer |
| CachedSearch.AfterSearch | database/cached_search.py:111-174 | the cache and answer after a search; computed by `CachedSearch.Search` and stated by `InsertKeepsOk` and `HitIsEngineResult` |
| CachedSearch.HitIsEngineResult | database/cached_search.py:146-152 | a hit holds exactly what the engine answers for that search |
| CachedSearch.CachedSearch.constructor | database/cached_search.py:54-67 | stores the engine, TTL and bound, with an empty cache |
| CachedSearch.CachedSearch.Cleanup | database/cached_search.py:91-107 | the new cache is the eviction of the old one |
| CachedSearch.CachedSearch.Search | database/cached_search.py:111-174 | results are always the engine's answer; an empty query gives [] and a bypassed cache leaves the dictionary alone; new state is the hit, refresh or insert-and-evict of the old one |
| CachedSearch.CachedSearch.ClearCache | database/cached_search.py:176-182 | the cache becomes empty |
| CachedSearch.CachedSearch.GetCacheStats | database/cached_search.py:184-210 | the statistics of the current cache at the given time |
| CachedSearch.TinyCacheMissLeavesNothing | database/cached_search.py:143-169 | a miss on a full cache whose bound is below 2 leaves the cache empty |
| Neo4jClient.ApplySpec | database/neo4j_client.py:146-153 | the listed keys the chapter object holds take the chapter's values; every other key is unchanged |
| Neo4jClient.OverrideSpec | database/neo4j_client.py:134-160 | field by field: a listed field in a well-formed chapter object takes the chapter's value, everything else keeps the store's value |
| Neo4jClient.RelatedOnlyDefinition | database/neo4j_client.py:312-333 | a related concept only ever changes its definition |
| Neo4jClient.MalformedMentionsKeepRow | database/neo4j_client.py:139-158 | malformed or missing mentions leave a row exactly as the store returned it |
| Neo4jClient.ProcessConcepts | database/neo4j_client.py:132-160 | one processed row per store row, in order, each the overridden row |
| Neo4jClient.GetRelatedConcepts | database/neo4j_client.py:276-335 | without a chapter the rows come back untouched; with one each row's definition is overridden |
| Neo4jClient.GetConceptByName | database/neo4j_client.py:476-519 | `{}` without rows; else the first row, overridden when a chapter is given |
| Neo4jClient.GetRandomConcept | database/neo4j_client.py:183-274 | the pick of the requested relation count, else the pick among all the chapter's concepts, else `{}`; the pick gets the chapter override |
| Neo4jClient.KeywordConditions | database/neo4j_client.py:690-693 | one regular-expression clause per keyword, in order |
| Neo4jClient.KeywordConditionEmptyIff | database/neo4j_client.py:690-696 | the joined condition is empty exactly when there are no keywords |
| Neo4jClient.SearchConceptsByKeywords | database/neo4j_client.py:677-754 | the condition sent is the keywords' clauses joined by " OR ", empty exactly when there are no keywords; then the query (`WHERE` directly before `RETURN`) raises and the call fails, as it does when the store raises; otherwise one result per row, overridden by the chapter when one is given |
| Neo4jClient.DifficultyRule | database/neo4j_client.py:444-474 | "basic" without statistics; otherwise "advanced" exactly when more than 70% of attempts were correct |
| Neo4jClient.SuggestDifficultyLevel | database/neo4j_client.py:444-474 | the suggested level; its rule is stated by `DifficultyRule` |
| Neo4jClient.EmptyResultDefaults | database/neo4j_client.py:76-93 | lookups answer `{}` (the chapter lookup None) without rows; otherwise the first row, and for the course lookup that row's `c` column, `{}` when it has none |
| Neo4jClient.GetCourseInfo | database/neo4j_client.py:76-93 | the `c` column of the first row (`{}` when the row has none), or `{}` without rows; stated by `EmptyResultDefaults` |
| Neo4jClient.GetConceptWithRelations | database/neo4j_client.py:162-181 | the first row, or `{}` without rows; stated by `EmptyResultDefaults` |
| Neo4jClient.GetChapterInfo | database/neo4j_client.py:780-804 | the first row or None; stated by `EmptyResultDefaults` |
| Models.ConceptFromDict | database/models.py:31-51 | the caller's dictionary after the pops is exactly the unknown keys, and it becomes the concept's properties |
| Models.ConceptRoundTrip | database/models.py:20-51 | `from_dict(to_dict(c))` is `c` without its id when no property shadows a core field |
| Models.ConceptPropertiesWin | database/models.py:20-29 | a property named like a core field wins, because the properties are spread last |
| Models.ConceptShadowingCounterexample | database/models.py:20-51 | a property named "name" changes the name the round trip gives back |
| Models.ConceptDefaults | database/models.py:34-39 | missing keys take the declared defaults |
| Models.TaskFromDict | database/models.py:76-99 | the keys left in the caller's dictionary are exactly those the task does not know |
| Models.TaskRoundTrip | database/models.py:64-99 | `from_dict(to_dict(t))` is `t` without its id and consumes the whole dictionary |
| Models.TaskDropsUnknownKeys | database/models.py:64-99 | whatever the input, the task serialises to its seven fields with their input values |
| Models.TaskDefaults | database/models.py:79-86 | missing keys take the declared defaults |
| Models.StudentFromDict | database/models.py:128-161 | the keys left over are exactly the unknown ones |
| Models.StudentRoundTrip | database/models.py:114-161 | a round trip keeps everything but the id when `fromisoformat` reads back what `isoformat` wrote |
| Models.StudentTimeFallback | database/models.py:140-145 | a missing or unparsable time falls back to the current time |
| Models.AnswerFromDict | database/models.py:186-211 | the keys left over are exactly the unknown ones |
| Models.AnswerRoundTrip | database/models.py:175-211 | a round trip keeps everything but the id, given a time that survives `isoformat` |
| Models.AnswerDefaults | database/models.py:189-201 | missing keys take the declared defaults and the current time |
| Conversations.AppendedBounded | bot/conversation.py:32-53 | with a positive bound the history keeps the newest messages in order, at most the bound, ending with the new one |
| Conversations.AppendedZeroBound | bot/conversation.py:52-53 | a bound of 0 trims nothing, because `h[-0:]` is the whole list |
| Conversations.LastBotTaskNone | bot/conversation.py:82-87 | without a bot message carrying a task the history yields None |
| Conversations.LastBotTaskNewest | bot/conversation.py:82-85 | otherwise it yields the task of the newest such message |
| Conversations.AppendedNoTask | bot/conversation.py:32-53 | `add_message` never adds a message with a task |
| Conversations.LastTaskWithoutTaskMessages | bot/conversation.py:72-87 | on histories built by `add_message` the last task is the current task or None |
| Conversations.OptionLinesOk | bot/conversation.py:121-126 | option lines are produced exactly when every option is a dictionary with a text |
| Conversations.FormatTask | bot/conversation.py:89-132 | the rendered task; computed by `Conversation.FormatTaskForDisplay` and stated by `FormatTaskFacts` |
| Conversations.FormatTaskFacts | bot/conversation.py:89-132 | no task gives the placeholder; a shown task starts with its heading; with a list of options it is shown exactly when every option has a text |
| Conversations.Encode | bot/conversation.py:134-147 | the dictionary of a state; stated by `RoundTrip` |
| Conversations.Decode | bot/conversation.py:149-172 | the state of a dictionary; stated by `RoundTrip` and `DecodeDefaults` |
| Conversations.Conversation.ToDict | bot/conversation.py:134-147 | the dictionary of the conversation's state; stated by `RoundTrip` |
| Conversations.RoundTrip | bot/conversation.py:134-172 | `from_dict(to_dict(c))` keeps student, history, task and state, and the time when `fromisoformat` reads back `isoformat` |
| Conversations.DecodeDefaults | bot/conversation.py:150-172 | an empty dictionary gives a fresh idle conversation of student 0 |
| Conversations.Conversation.constructor | bot/conversation.py:19-30 | empty history, no task, idle |
| Conversations.Conversation.AddMessage | bot/conversation.py:32-53 | appends and trims the history, stamps the time, and changes nothing else |
| Conversations.Conversation.SetCurrentTask | bot/conversation.py:55-63 | sets the task and the waiting state, nothing else |
| Conversations.Conversation.ClearCurrentTask | bot/conversation.py:65-70 | clears the task and returns to idle, nothing else |
| Conversations.Conversation.GetLastTask | bot/conversation.py:72-87 | the scan from the newest message returns the last task |
| Conversations.Conversation.FormatTaskForDisplay | bot/conversation.py:89-132 | returns the formatted task, None where the call raises |
| Conversations.FromDict | bot/conversation.py:149-172 | a new conversation holding the decoded state |
| Conversations.Registry.GetConversation | bot/conversation.py:179-192 | the student's conversation: the stored object when there is one, else a fresh one now stored |
| Conversations.Registry.SaveConversation | bot/conversation.py:195-203 | stores the conversation under its student and nothing else |
| Crew.StreakUpdatesKeepOthers | agents/crew.py:385-414 | both streak updates touch only the answering student and keep every counter below the goal |
| Crew.ReplayCount | agents/crew.py:385-414 | after any run of answers the counter is the number of correct answers since the last wrong one, modulo five |
| Crew.PromotionOnFifth | agents/crew.py:387-399 | the promotion is offered exactly on every fifth correct answer in a row |
| Crew.ReplayIndependent | agents/crew.py:385-414 | one student's answers never touch another student's counter |
| Crew.FirstSelectedSpec | agents/crew.py:380-383 | over dictionary options an option is selected exactly when one is flagged correct with the answer as label, and it is the first such |
| Crew.ScanLoop | agents/crew.py:376-383 | the loop computes the scan specification |
| Crew.AfterCorrectFacts | agents/crew.py:385-399 | a correct answer moves the counter up, or from the last step back to 0 with the promotion |
| Crew.GradeTemplate | agents/crew.py:376-428 | the template grading and the new streaks; stated by `GradeTemplateFacts`, `TemplateCorrectIff`, `WrongTemplateResets` and `CorrectAdvancesStreak` |
| Crew.GradeCreative | agents/crew.py:430-535 | the creative grading and the new streaks; stated by `GradeCreativeFacts`, `CreativeFailuresKeepStreak` and `CompletedFacts` |
| Crew.Checked | agents/crew.py:353-548 | `async_check_answer`; computed by `TutorCrew.CheckAnswer` and stated by `CheckedKeepsOthers` |
| Crew.GradeTemplateFacts | agents/crew.py:376-428 | the template branch is correct exactly for a selected option, and each outcome updates the streak accordingly |
| Crew.GradeCreativeFacts | agents/crew.py:430-535 | the creative branch accepts on a timeout or an error and keeps the streak; otherwise it follows the model's verdict |
| Crew.TemplateCorrectIff | agents/crew.py:376-405 | a template answer over well-formed options is correct exactly when it names a correct option's label |
| Crew.WrongTemplateResets | agents/crew.py:408-428 | a wrong template answer resets the streak and offers discuss, try again and skip |
| Crew.CorrectAdvancesStreak | agents/crew.py:385-399 | a correct answer of either kind raises the streak; a full streak offers the promotion and starts over |
| Crew.CheckedKeepsOthers | agents/crew.py:353-548 | one grading changes at most the answering student's counter |
| Crew.CreativeFailuresKeepStreak | agents/crew.py:514-535 | a timeout or error keeps the streak and accepts with score 6 or 5 |
| Crew.CompletedFacts | agents/crew.py:473-482 | the verdict keeps the model's fields; a missing score is 7 or 4, a blank feedback takes the explanation |
| Crew.TutorCrew.CheckAnswer | agents/crew.py:353-548 | result and new counters are those of the grading specification; other students' counters are unchanged |
| Crew.FallbackTask | agents/crew.py:303-352 | the fallback task; stated by `FallbackTaskShape` and `FallbackOptionsShape` |
| Crew.FallbackOptionsShape | agents/crew.py:303-352 | the fallback options are A to D in order with only A correct |
| Crew.FallbackTaskShape | agents/crew.py:303-352 | the fallback tasks carry those options or three criteria and hints, and echo type and difficulty |
| Crew.AdaptTaskDifficulty | agents/crew.py:586-631 | the adaptation; stated by `AdaptationRule` |
| Crew.AdaptationRule | agents/crew.py:586-631 | "advanced" exactly when the current difficulty is "standard"; template type exactly after "creative"; no concepts named |
| Crew.ExtractJson | agents/crew.py:632-666 | the JSON object found in a text; stated by `ObjectSliceBounds`, `ExtractJsonRaw` and `ExtractJsonCases` |
| Crew.ObjectSliceBounds | agents/crew.py:632-660 | the piece parsed as an object runs from the first "{" to the last "}", or is empty when they are out of order |
| Crew.ExtractJsonRaw | agents/crew.py:632-666 | a reply nothing parses gives the text back as "raw_text" |
| Crew.ExtractJsonCases | agents/crew.py:632-666 | a list-only reply is wrapped in "data"; a reply without brackets is parsed whole |
| OpenRouter.CoercionFacts | api/openrouter.py:149-156 | unknown types become "template", unknown difficulties "standard", known values are kept |
| OpenRouter.GenerateTask | api/openrouter.py:105-462 | the generated or fallback task; stated by `GenerateTaskCoerces`, `NoKeyGivesFallback` and `FailedReplyGivesFallback` |
| OpenRouter.FallbackOptionsShape | api/openrouter.py:433-441 | the fallback options are A to D with only A correct, A carrying the definition |
| OpenRouter.ApiFallbackTemplate | api/openrouter.py:426-449 | the fallback template task carries those options, two hints, and the type and difficulty given |
| OpenRouter.RelatedOptionsSpec | api/openrouter.py:369-375 | related concepts become incorrect options one by one, labelled from B |
| OpenRouter.NormaliseOption | api/openrouter.py:381-385 | one option normalised; stated by `NormaliseDictOption` and `NormalisedRelatedOption` |
| OpenRouter.NormaliseOptionsLoop | api/openrouter.py:380-386 | the loop computes the normalisation specification |
| OpenRouter.NormalisedOptionsSpec | api/openrouter.py:380-386 | a list of dictionaries normalises element by element at its position |
| OpenRouter.NormaliseDictOption | api/openrouter.py:381-385 | a dictionary option keeps every field and gains a label and an explanation where it has none |
| OpenRouter.GenerateTaskCoerces | api/openrouter.py:105-422 | with a key and a named concept the task carries the coerced type and difficulty |
| OpenRouter.NoKeyGivesFallback | api/openrouter.py:125-127 | without an API key the result is the fallback task for the type and difficulty as given |
| OpenRouter.FailedReplyGivesFallback | api/openrouter.py:423-462 | a failed reply gives the fallback task for the coerced type and difficulty |
| OpenRouter.DefaultOptionsSpec | api/openrouter.py:364-375 | the replacement options: the definition as correct A, then the first three related concepts |
| OpenRouter.NormalisedRelatedOption | api/openrouter.py:369-385 | a replaced related option gains the default explanation |
| OpenRouter.FewOptionsReplaced | api/openrouter.py:364-386 | fewer than two options are replaced by the definition and up to three related concepts, all explained |
| OpenRouter.LastHitSpec | api/openrouter.py:491-496 | the scan keeps the last option the condition picks, none exactly when it picks none |
| OpenRouter.ScanPicksDefined | api/openrouter.py:491-496 | the scan succeeds exactly when every option is readable |
| OpenRouter.ScanPicksLast | api/openrouter.py:491-496 | it keeps the last flagged option and the last option whose label matches |
| OpenRouter.FirstFlaggedSpec | api/openrouter.py:511-514 | the first flagged option, none exactly when none is flagged |
| OpenRouter.ScanLoop | api/openrouter.py:491-496 | the loop computes the scan specification |
| OpenRouter.FirstCorrectLoop | api/openrouter.py:510-514 | the loop yields the 1-based number of the first correct option, or "" |
| OpenRouter.CheckTemplate | api/openrouter.py:483-524 | the template verdict; computed by `CheckTemplateAnswer` and stated by `CheckTemplateUnfold`, `UnmatchedIsWrong`, `SelectedFlagDecides` and `WrongAnswerNamesFirstCorrect` |
| OpenRouter.CheckTemplateAnswer | api/openrouter.py:483-524 | the method computes the template grading specification |
| OpenRouter.CheckTemplateUnfold | api/openrouter.py:483-524 | with readable options grading is the verdict on the last flagged and last matching options |
| OpenRouter.UnmatchedIsWrong | api/openrouter.py:498-502 | an answer matching no label is wrong with the fixed feedback |
| OpenRouter.SelectedFlagDecides | api/openrouter.py:504-524 | the verdict is the selected option's own flag; grading raises only for a wrong answer without any correct option |
| OpenRouter.WrongAnswerNamesFirstCorrect | api/openrouter.py:509-520 | on a wrong answer the feedback names the number of the first correct option |
| OpenRouter.Similarity | api/openrouter.py:1024-1044 | the word similarity lies in [0, 1] |
| OpenRouter.SimilaritySymmetric | api/openrouter.py:1036-1044 | it does not depend on the order of the texts |
| OpenRouter.SimilaritySelf | api/openrouter.py:1036-1044 | a text with words is fully similar to itself |
| OpenRouter.SimilarityDisjoint | api/openrouter.py:1036-1044 | texts without a shared word have similarity 0 |
| OpenRouter.TooSimilarSpec | api/openrouter.py:1018-1019 | a template is rejected exactly when some existing text shares more than 70% of its words |
| OpenRouter.FirstDistinctSpec | api/openrouter.py:1016-1019 | the first template the test lets through, none exactly when it lets none through |
| OpenRouter.LowerTextsDefined | api/openrouter.py:1014 | dictionary options with string texts give their lowercased texts |
| OpenRouter.IncorrectOption | api/openrouter.py:989-1022 | the first template not too similar to the correct answer; computed by `IncorrectOptionLoop` and stated by `IncorrectOptionSpec` |
| OpenRouter.IncorrectOptionLoop | api/openrouter.py:989-1022 | the loop with its early return computes the specification |
| OpenRouter.IncorrectOptionSpec | api/openrouter.py:989-1022 | the first template no existing text is too similar to, or the fixed sentence |
| OpenRouter.PartOptionsFacts | api/openrouter.py:930-957 | the options from the modified parts follow one another from the next letter, all incorrect |
| OpenRouter.ShortOptionsInPlace | api/openrouter.py:959-972 | the three fixed options of a short definition are B, C and D |
| OpenRouter.InitialShaped | api/openrouter.py:920-972 | before padding there are three or four options, in place |
| OpenRouter.PaddedShaped | api/openrouter.py:974-985 | padding keeps the options and adds wrong ones in place up to four |
| OpenRouter.ScratchShape | api/openrouter.py:902-987 | fails only for a non-string definition; otherwise exactly four options A to D, only the definition correct |
| OpenRouter.PartOptionsLoop | api/openrouter.py:930-957 | the loop computes the part-options specification |
| OpenRouter.ShortOptionsLoop | api/openrouter.py:959-972 | the loop appends the three fixed options |
| OpenRouter.PadLoop | api/openrouter.py:974-981 | the loop computes the padding specification |
| OpenRouter.OptionsFromScratch | api/openrouter.py:902-987 | the options built from the definition; computed by `GenerateOptionsFromScratch` and stated by `ScratchShape` |
| OpenRouter.GenerateOptionsFromScratch | api/openrouter.py:902-987 | the method computes the options-from-scratch specification |
| OpenRouter.KeyWordsFacts | api/openrouter.py:1057-1058 | at most three key words, each a word of the definition longer than five characters |
| OpenRouter.GenerateHints | api/openrouter.py:1046-1068 | the hints; stated by `HintsFacts` |
| OpenRouter.HintsFacts | api/openrouter.py:1046-1068 | exactly two hints for a string definition, the first naming the key words |
| TaskChecker.FirstWhereAt | agents/definitions/task_checker.py:58-60 | `next(...)` finds the first option that passes, given that every earlier one is rejected |
| TaskChecker.FirstWhereNotFound | agents/definitions/task_checker.py:58-60 | it finds nothing exactly when every option is rejected |
| TaskChecker.FirstWhereFound | agents/definitions/task_checker.py:58-60 | what it finds is an option of the list that passes the test |
| TaskChecker.BadFormatNotCorrect | agents/definitions/task_checker.py:50-55 | a trimmed answer other than "1" to "4" is not correct |
| TaskChecker.ChoiceResultShape | agents/definitions/task_checker.py:37-106 | every outcome carries a boolean verdict and an explanation; any failure asks to try again |
| TaskChecker.NoCorrectOptionNotCorrect | agents/definitions/task_checker.py:62-66 | with no option flagged correct the answer is not correct |
| TaskChecker.CorrectIffFirstCorrectLabel | agents/definitions/task_checker.py:57-69 | the answer is correct exactly when the first option flagged correct has the answer as its label |
| TaskChecker.UnmatchedChoiceNotCorrect | agents/definitions/task_checker.py:71-80 | an answer that is no option's label is not correct |
| TaskChecker.CompletedGradingFacts | agents/definitions/task_checker.py:82-99 | a completed grading names the correct label and explanation, and recommends study exactly when wrong |
| TaskChecker.GradeChoice | agents/definitions/task_checker.py:57-99 | the grading of a well-formed choice; stated by `CorrectIffFirstCorrectLabel`, `UnmatchedChoiceNotCorrect`, `NoCorrectOptionNotCorrect` and `CompletedGradingFacts` |
| TaskChecker.CheckChoice | agents/definitions/task_checker.py:37-106 | the tool's result; stated by `ChoiceResultShape`, `BadFormatNotCorrect` and `LetterLabelsNeverCorrect` |
| TaskChecker.LetterLabelsNeverCorrect | agents/definitions/task_checker.py:50-69 | as written, no answer is ever correct on options labelled by letters |
| TaskChecker.FallbackOptionsLettered | api/openrouter.py:432-441 | the client's fallback options carry the letters A to D |
| TaskChecker.FallbackTaskUnanswerable | agents/definitions/task_checker.py:50-69 | as written, the client's fallback task cannot be answered correctly |
| TaskChecker.CorrectedFirstOption | agents/definitions/task_checker.py:50-99 | with the correction, "1" is correct when the first option is the correct "A" |
| TaskChecker.CheckChoiceCorrected | agents/definitions/task_checker.py:50-99 | the check with the chosen digit read as a position; stated by `CorrectedFirstOption` and `CorrectedFallbackAnswerable` |
| TaskChecker.CorrectedFallbackAnswerable | agents/definitions/task_checker.py:50-99 | with the correction, "1" on the fallback task is graded correct |
| TaskChecker.JoinCriteria | agents/definitions/task_checker.py:176 | Python's `", ".join(criteria)`; stated by `CriteriaJoinFacts` |
| TaskChecker.AllStringsIff | agents/definitions/task_checker.py:176 | a list joins exactly when every item is a string |
| TaskChecker.CriteriaJoinFacts | agents/definitions/task_checker.py:176 | the join succeeds exactly for a string, a dictionary (whose keys are joined) or a list of strings; a one-string list gives that string; a one-key dictionary gives its key |
| TaskChecker.FinishCreative | agents/definitions/task_checker.py:159-178 | the completed verdict; stated by `CreativeWrongAddsTwo`, `CreativeKeepsOtherFields` and `CreativeCorrectQuotesCourse` |
| TaskChecker.CheckCreative | agents/definitions/task_checker.py:136-186 | the tool's result: an unparsable verdict, or one `FinishCreative` cannot complete, gives the error result; the completed verdict is stated by `FinishCreative`'s lemmas |
| TaskChecker.CreativeWrongAddsTwo | agents/definitions/task_checker.py:159-178 | a wrong verdict succeeds exactly when the recommendations are a list, the task has "concept_name" and "criteria" and the criteria join; the recommendations are then the old ones followed by the study advice naming the concept and the joined criteria |
| TaskChecker.CreativeKeepsOtherFields | agents/definitions/task_checker.py:159-178 | the tool changes nothing but the recommendations and explanation |
| TaskChecker.CreativeCorrectQuotesCourse | agents/definitions/task_checker.py:163-170 | a correct answer quotes the course's definition when there is one and no example |
| TaskAdapter.SuggestDifficulty | agents/definitions/task_adapter.py:107-153 | a failing store query gives the error result; otherwise the suggested level and the three concept lists |
| TaskAdapter.BandThresholds | agents/definitions/task_adapter.py:136-139 | problem band under half correct, strong band over four fifths, attempts floored at 1 |
| TaskAdapter.ConceptsIff | agents/definitions/task_adapter.py:130-140 | a concept is in a band's list exactly when some row of that name falls in the band |
| TaskAdapter.ConceptsKeepOrder | agents/definitions/task_adapter.py:130-140 | the lists keep the order of the rows |
| TaskAdapter.BandsPartition | agents/definitions/task_adapter.py:130-140 | each readable row lands in exactly one band |
| Assistant.ExtractKeywords | agents/assistant.py:114-144 | the keywords of a question; stated by `KeywordsIff`, `NoKeywordsIff` and `KeywordsAreWordChars` |
| Assistant.KeywordsIff | agents/assistant.py:114-144 | two or more long non-stop words are the keywords; otherwise the words longer than three characters |
| Assistant.NoKeywordsIff | agents/assistant.py:114-144 | no keyword is extracted exactly when fewer than two words are primary and no word is longer than three characters |
| Assistant.KeywordsAreWordChars | agents/assistant.py:126-134 | keywords hold only word characters, lower-cased from the question |
| Assistant.RelationLinesAppend | agents/assistant.py:176-185 | the lines of consecutive relation lists concatenate |
| Assistant.IncompleteRelationSkipped | agents/assistant.py:176-185 | a relation missing its type or concept adds nothing |
| Assistant.RelationLoop | agents/assistant.py:176-185 | the loop computes the relation lines, None as soon as a relation raises |
| Assistant.ConceptBlockOf | agents/assistant.py:160-188 | one concept's block, as the loop body builds it |
| Assistant.ConceptContext | agents/assistant.py:146-199 | the context text; computed by `BuildConceptContext` and stated by `ContextPartsOrder`, `BlockStartsWithText`, `ConceptBlockFirstFive` and `RelationErrorKeepsBlock` |
| Assistant.BuildConceptContext | agents/assistant.py:146-199 | the method computes the context specification |
| Assistant.ContextPartsOrder | agents/assistant.py:146-199 | the chapter block first when there is one, then one block per concept in order |
| Assistant.BlockStartsWithText | agents/assistant.py:160-170 | each concept block begins with the concept's own text |
| Assistant.ConceptBlockFirstFive | agents/assistant.py:176 | only the first five relations of a concept matter |
| Assistant.RelationErrorKeepsBlock | agents/assistant.py:172-188 | an error fetching relations, or a malformed one among the first five, keeps the concept's own text |
| Assistant.AnswerQuestion | agents/assistant.py:33-85 | the reply to a question; stated by `NothingFoundApologises` and `NoKeywordsIsError` |
| Assistant.NoKeywordsIsError | agents/assistant.py:33-85 | a question without keywords gets the error reply, because the keyword search fails without keywords |
| Assistant.NothingFoundApologises | agents/assistant.py:33-85 | nothing found gives the fixed apology without consulting the model; otherwise the model's reply to the context |
| UnifiedAssistant.ChooseBackend | agents/unified_assistant.py:77-121 | the search backend chosen; stated by `BackendChoice` |
| UnifiedAssistant.BackendChoice | agents/unified_assistant.py:77-121 | the fallback search whenever the library is missing or construction fails; enhanced search exactly when it is the backend |
| UnifiedAssistant.RouteOf | agents/unified_assistant.py:145-179 | the route taken; stated by `RouteIff` |
| UnifiedAssistant.RouteIff | agents/unified_assistant.py:145-179 | a task is discussed exactly when the context has a task question or a concept name |
| UnifiedAssistant.SemanticSearch | agents/unified_assistant.py:307-372 | the search results; stated by `SearchChain` and, for the store search as written, by `StandardFallbackFindsNothing` |
| UnifiedAssistant.SearchChain | agents/unified_assistant.py:307-372 | enhanced results when enabled and non-empty, otherwise the store's search, [] when that fails (the corrected half of a finding: a store that has the search) |
| UnifiedAssistant.StandardFallbackFindsNothing | agents/unified_assistant.py:350-372 | as written the store search always raises, so without enhanced results the search returns [] |
| UnifiedAssistant.Run | agents/unified_assistant.py:514-571 | the retry loop as a function; computed by `RetryLoop` and stated by `RunCounts`, `RunRetries`, `RunExhausted` and `RunGoodAnswer` |
| UnifiedAssistant.RetryLoop | agents/unified_assistant.py:514-571 | the loop computes the retry specification |
| UnifiedAssistant.StepFacts | agents/unified_assistant.py:518-571 | each step stops exactly on a good reply; a short reply adds 500 tokens and the insisting prompt |
| UnifiedAssistant.RunCounts | agents/unified_assistant.py:514-519 | attempts are numbered from one, at most three, one request each |
| UnifiedAssistant.RunRetries | agents/unified_assistant.py:518-571 | each retry follows a reply that was not good, with the token and prompt changes |
| UnifiedAssistant.RunExhausted | agents/unified_assistant.py:514-573 | three attempts and a short answer exactly when no reply was good |
| UnifiedAssistant.RunGoodAnswer | agents/unified_assistant.py:530-562 | a good last reply is the answer, with the note when cut at the length limit |
| UnifiedAssistant.AnswerWithRetries | agents/unified_assistant.py:514-590 | the loop, the fallback and the length warning together |
| UnifiedAssistant.Finished | agents/unified_assistant.py:573-590 | the answer returned after the loop; stated by `FinishedAnswer` |
| UnifiedAssistant.FinishedAnswer | agents/unified_assistant.py:573-590 | the fallback exactly when no attempt was good, else the good reply; over 4000 characters gets the warning |
| UnifiedAssistant.WarnedFacts | agents/unified_assistant.py:586-588 | the warning goes exactly in front of answers over 4000 characters |
| UnifiedAssistant.ConsultFallback | agents/unified_assistant.py:785-800 | the consultation fallback; computed by `ConsultFallbackLoop` and stated by `ConsultFallbackFacts` |
| UnifiedAssistant.ConsultFallbackLoop | agents/unified_assistant.py:785-800 | the loop computes the consultation fallback |
| UnifiedAssistant.ConsultFallbackFacts | agents/unified_assistant.py:793-800 | only the first three concepts matter; the fallback fails exactly when one of them has no name |
| UnifiedAssistant.FoundItemsDefined | agents/unified_assistant.py:793-796 | the item lines exist exactly when every concept has a name |
| UnifiedAssistant.DiscussTaskRetries | agents/unified_assistant.py:486-590 | 1500 tokens, 1000 over 4000 characters of context, then the retry loop and the discussion fallback |
| UnifiedAssistant.ConsultationRetries | agents/unified_assistant.py:700-810 | 1500 tokens, 1000 over 5000 characters of context, then the retry loop and the concept fallback |
| UnifiedAssistant.ErrorTextsShort | agents/unified_assistant.py:566-573 | both error texts are short, so an attempt ending in an exception is replaced by the fallback |
| Handlers.PyIndex | bot/handlers.py:202-203 | Python indexing: negative indices count from the end; out of range raises |
| Handlers.IdentifierKept | bot/handlers.py:198 | removing the button prefix keeps an identifier `ch<digits>` |
| Handlers.IdentifierDigits | bot/handlers.py:202 | removing every "ch" from `ch<digits>` leaves the digits |
| Handlers.ChapterDataSteps | bot/handlers.py:198-202 | the identifier `ch<n>` survives the prefix removal and turns into the digits of `n` |
| Handlers.ChapterOf | bot/handlers.py:198-206 | the chapter an id names; stated by `ChapterOfData` and `ChapterOfCases` |
| Handlers.ChapterOfData | bot/handlers.py:198-206 | the button of chapter `n` selects `CHAPTERS[n - 1]` under Python indexing, or the identifier |
| Handlers.ChapterButtons | config/settings.py:43-53 | chapters 1 to 9 select their own title, 0 the last chapter, any larger number the identifier itself |
| Handlers.ChapterOfCases | bot/handlers.py:198-206 | the stored chapter is a course title or the data without its prefix |
| Handlers.FeedbackKeyboard | bot/handlers.py:471-511 | the keyboard after an answer; stated by `FeedbackKeyboardFacts` |
| Handlers.FeedbackKeyboardFacts | bot/handlers.py:471-511 | wrong answers offer discuss, try again and skip; the three changes appear exactly when unlocked; the standard rows come last |
| Handlers.AttributeTestNeverUnlocks | bot/handlers.py:444-445 | as written, the counter never exceeds 1 and the changes are never unlocked |
| Handlers.KeyTestCountsRuns | bot/handlers.py:471-493 | with the key test the counter is the trailing correct answers modulo three, unlocking exactly on a completed run |
| Handlers.KeyTestThreeInARow | bot/handlers.py:471-493 | three correct answers in a row unlock the changes on the third and not before |
| Handlers.AnswerEffect | bot/handlers.py:409-511 | the effect of an answer; computed by `UserData.Answer` and stated by `AnswerEffectFacts` |
| Handlers.AnswerEffectFacts | bot/handlers.py:409-511 | a checked answer leaves the counter where the streak rule puts it; a wrong one resets it and shows the wrong-answer rows |
| Handlers.UserData.constructor | bot/handlers.py:183-215 | a fresh user record holds no chapter, type, difficulty or counter |
| Handlers.UserData.SelectChapter | bot/handlers.py:183-215 | stores the chapter of the button and changes nothing else |
| Handlers.UserData.Answer | bot/handlers.py:409-511 | the counter and outcome are those of the streak specification; nothing else changes |
| Handlers.UserData.NextStep | bot/handlers.py:831-1002 | the next state and the new difficulty and type of the increase and change-type actions |
| Handlers.ActionOf | bot/handlers.py:846 | the action named by the callback data; stated by `NextStateFacts` and `SplitOnColon` |
| Handlers.NextStateOf | bot/handlers.py:846-980 | the state after a next-step action; computed by `UserData.NextStep` and stated by `NextStateFacts` and `ToggledTypeFacts` |
| Handlers.NextStateFacts | bot/handlers.py:846-980 | data without a colon is refused; only change_chapter, and try_again with a known task, leave the feedback state |
| Handlers.SplitOnColon | bot/handlers.py:846 | splitting gives two pieces or more exactly when a colon occurs |
| Handlers.ToggledTypeFacts | bot/handlers.py:966-980 | the switch flips between template and creative and reads a missing type as template |
| Handlers.RelabelledFacts | bot/handlers.py:323-333 | option `i` gets the `i`-th letter and the display label `i + 1`, every other field unchanged |
| Handlers.RelabelledTwice | bot/handlers.py:350-361 | relabelling twice is relabelling once |
| Handlers.AnswerRowsFacts | bot/handlers.py:343-366 | buttons fill rows of three with the remainder last, in option order, each with its number and letter |
| Handlers.Relabel | bot/handlers.py:323-333 | the array after the loop is the relabelled options |
| Handlers.AnswerKeyboard | bot/handlers.py:343-366 | the options relabelled, and their buttons three to a row followed by the skip and end row |
| Handlers.StudentStats.constructor | bot/handlers.py:539-543 | the counters as stored; they are consistent exactly when no more answers are correct than were given |
| Handlers.StudentStats.Record | bot/handlers.py:539-543 | one more task, and one more correct answer when it was correct |
| Handlers.RecordedCounts | bot/handlers.py:539-543 | after any run of answers the totals grow by the answers and by the correct ones, and consistent counters stay consistent |

## Left out

- Neo4j driver, sessions and Cypher text: the store is a function from the query's parameters to rows, `None` where Neo4j raises. The ORDER BY and LIMIT of the index query are store-side facts, written as the precondition of `EnhancedSearch.IndexResultsRanked`. Source-type filtering is a store-side fact as well: the Cypher the source sends for it is invalid (see Findings), `EnhancedSearch.AsWrittenStore` models that, and `EnhancedSearch.StoreAppliesFilter` states the intended filter.
- SentenceTransformer and torch: model loading is the parameter `load`, and encoding is an uninterpreted `encode` that may fail.
- EnhancedSearch.EncodeBatch: one batched `encode` call is taken to equal encoding each text on its own, failing when any text fails. For a pooled sentence model this holds up to floating point. `EnhancedSearch.BatchesHitsPerRecord` and `EnhancedSearch.GatheredPerRecord` rest on it.
- `EnhancedSearch.Cosine`: the dot-product ratio of well-formed non-zero vectors is the uninterpreted `ratio`. Only the guard cases are stated, because the square root and float division are floating point (`real` stands for `float`).
- The thread pool of `_search_hybrid`: `executor.map` is an order-preserving sequential map. Concurrency is not modelled.
- Cache keys: JSON serialisation and MD5 (RFC 1321) are abstracted to the canonical key object. The key is therefore injective on the parameters.
- Cache clock: `search` reads the clock twice; the model uses one `now` for both the expiry test and the new timestamp.
- Cache invariant: it assumes the engine's answer for a search does not change while the cache lives, since the store is a fixed function.
- Dictionary order: Python dict iteration order is kept only where the model uses it, namely the cache entries (a sequence of pairs with distinct keys).
- Language-model calls: `generate_completion`, the Grok client, asyncio loops and timeouts are oracle outcomes. So are the regex-based `_parse_text_response` and the prompts.
- `_extract_json_from_text`: only the slicing is modelled; `json.loads` is the parameter `parse`.
- Telegram transport: replies, message edits, `format_feedback_message` and `format_task_message` are presentation and are not modelled. `bot/keyboards.py` repeats the three-per-row rule that `Handlers.AnswerRowsFacts` states.
- Conversations.Decode: a key present with the value null (`None`) for `student_id`, `history` or `current_state` decodes to the default, whereas `data.get` keeps the `None` (bot/conversation.py:160-163). The conversation state is typed, and a `None` student or history would only make later calls raise; the decoder's data record has one `Option` per key, so it cannot tell a null from a missing key.
- Conversations.FromDict: the same; it decodes through `Conversations.Decode`.
- TaskChecker.JoinCriteria: iterating a dictionary yields its keys in insertion order, which a Dafny `map` does not keep; the order is the parameter `keyOrder`.
- Bot user data: `context.user_data` is modelled as the typed optional fields of `Handlers.UserData`. Handlers reach an option dictionary through several names; the model instead relabels one array of option dictionaries.
- Handlers collaborators: the shuffle is random, so `Handlers.Relabel` works on whatever order the list arrives in. The `discuss`, `try_again`, `skip`, `new_task` and `end` actions only send messages or call the language model, so only their state transitions are modelled.
- Python `int()`: `Text.PyInt` accepts ASCII digits only. Other Unicode digits are not modelled.
- `Text.IsWordChar`: Python's `\w` is approximated by ASCII letters, digits, `_` and the Cyrillic alphabet.
- `Text.Lower`, `Text.Upper`: these cover ASCII and Cyrillic letters only.
- OpenRouter.Letter: `chr(65 + i)` is modelled for any position, but no guarantee is made that it stays a letter past "Z". The statements about labels concern the first four positions.
- `UnifiedAssistant`'s `_extract_keywords` and `_build_concept_context` repeat `CourseAssistant`'s text line for line (agents/unified_assistant.py:818-900). They are modelled once, in `Assistant`.
- Logging, `log_interaction`, `close`, `answer_question_sync` and the hint and explanation helpers of the unified assistant are left out: they only log, wrap the event loop or call the language model.
- Benchmark, index-creation and import-fixing scripts, configuration, prompts and CrewAI glue are outside the core.
- `MAX_HISTORY_MESSAGES` is defined in a configuration module that is not part of this model. It is the parameter `maxHistory`.

## Findings

| source | as written | input that shows it | evidently intended | confidence | as-written member | corrected member |
|---|---|---|---|---|---|---|
| agents/definitions/task_checker.py:50-69 | the answer must be one of "1" to "4" and is compared to the label of the correct option, but every option the system generates is labelled "A" to "D" | the fallback template task with answer "1" | the digit chosen names the option at that position, so "1" on a task whose first option is the correct "A" is correct | not executed | TaskChecker.LetterLabelsNeverCorrect | TaskChecker.CorrectedFallbackAnswerable |
| bot/handlers.py:444-445 | `hasattr(context.user_data, "correct_answers_count")` tests an attribute of the dictionary, which it never has, so the counter is reset to 0 before every answer and the three-in-a-row branch is unreachable | three correct answers in a row | test the key (`"correct_answers_count" not in context.user_data`), so the third correct answer in a row unlocks the changes | not executed | Handlers.AttributeTestNeverUnlocks | Handlers.KeyTestThreeInARow |
| database/enhanced_search.py:559-735 | with any source filter the hybrid query reads `MATCH (n:Concept) AND n.source_type IN $source_types` (lines 559-568) and the index query reads `WHERE score >= $threshold WHERE c.source_type IN $source_types` (lines 722-735); both are invalid Cypher, so Neo4j raises and the search returns [] | `semantic_search_with_ranking` with `source_types=["official"]` | restrict the results to the requested source types (`WHERE n.source_type IN ...` in the hybrid query, `AND c.source_type IN ...` in the index query) | not executed | EnhancedSearch.SourceFilterFindsNothing | EnhancedSearch.FilteredResultsOfRequestedTypes |
| agents/unified_assistant.py:350-372 | `_fallback_standard_search` calls `self.neo4j_client.semantic_search(...)`, but the store client (database/neo4j_client.py) defines no such method, so the call raises `AttributeError`, is caught, and the fallback always returns [] | a question for which enhanced search is off, finds nothing or raises | answer with the store's own semantic search, as the fallback chain describes | not executed | UnifiedAssistant.StandardFallbackFindsNothing | UnifiedAssistant.SearchChain |
