# Personal knowledge agent — a Dafny model of its core

The personal knowledge agent is a retrieval-augmented question-answering system for a person's
own documents. Files are uploaded through a Gradio web interface and checked for extension, size
and content hash. Each file is split into overlapping chunks and classified into one of six
categories with a priority. The chunks are embedded and kept in a vector store. At question time
the store is searched by vector similarity, optionally fused with a keyword search. The retrieved
chunks become a numbered context for the language model. Its answer is returned with a confidence
estimate and the list of source files.

This project models that core in Dafny. It has one module per source file:

- **Storage**
  - `VectorStore` (`vector_store_simple.py`): relevance normalisation and the distance-tier clamp, the where-clause, broadening the search, document ids, hybrid search.
  - `Fusion`: the weighted fusion and hash de-duplication that both stores share.
  - `LegacyVectorStore` (`vector_store.py`).
  - `Embeddings` (`embedding_manager.py`): the text-hash embedding and the query cache with its eviction.
- **Ingestion**
  - `Splitter`: the paragraph/sentence chunker and the per-chunk metadata.
  - `Classify`: the rule-based classifiers of both document loaders.
  - `DocumentClassifier`: the LLM-reply parser and the rules fallback.
  - `Keywords`: frequency-ranked keyword extraction.
- **Configuration and utilities**
  - `Settings`: embedding-method selection and configuration validation.
  - `SearchHistory`: the bounded search history.
  - `Helpers`: file names, sizes, batches, ids and response dictionaries.
- **Generation**
  - `Rag`: the context builder, confidence estimate, source list, answer assembly and the normalisation of model classifications.
  - `Prompts`: the model configuration and the answer-quality estimate.
- **Web application**
  - `GradioApp`: upload checks and the add/skip/replace decision, the document list, the document preview, the chat context and history, and follow-up suggestions.
- **Shared**
  - `Common`, `Text`, `Documents` and `Sorting` are helpers. `Sorting` is Python's stable `sort(reverse=True)`.

Python values are modelled directly:

- Metadata values are `Str`, `Num` or `Bool`. A comparison or arithmetic step that would raise `TypeError` in Python is an error result in the model.
- Sorts are stable insertion sorts by key.
- Clocks, md5, Python's `hash()`, the embedding backends and the language model are parameters of the operations that use them.

The objects that the source updates in place are classes with `modifies` clauses:

- `Embeddings.EmbeddingManager`
- `SearchHistory.SearchHistoryManager`
- `GradioApp.KnowledgeApp`

## Model

| member | source | states |
|---|---|---|
| Sorting.SortDescSorted | src/storage/vector_store_simple.py:489 | Sorting with `reverse=True` yields non-increasing keys. |
| Sorting.SortDescPermutation | src/storage/vector_store_simple.py:489 | The sort is a permutation of its input. |
| Sorting.SortDescStable | src/generation/llm_manager.py:414 | The sort is stable: elements with equal keys keep their original order. |
| VectorStore.Normalise | src/storage/vector_store_simple.py:228-235 | Min–max normalisation maps a distance in [lo, hi] into [0, 1]. The nearest distance gets 1 and the farthest gets 0. A degenerate range gets 0.5. |
| VectorStore.TierClamp | src/storage/vector_store_simple.py:238-245 | The clamped relevance always lies in [0, 1], within the band of its distance tier. A value already inside the band is left unchanged. |
| VectorStore.RelevanceAntitone | src/storage/vector_store_simple.py:228-245 | A larger distance never gets a higher relevance score. |
| VectorStore.HitsProperties | src/storage/vector_store_simple.py:220-256 | Every converted hit keeps its text and metadata and has a relevance in [0, 1]. Hits are ordered by relevance in the opposite order to their distances. |
| VectorStore.ConvertHits | src/storage/vector_store_simple.py:220-256 | The conversion loop produces exactly the specified hit list. |
| VectorStore.WhereOf | src/storage/vector_store_simple.py:200-204 | Each filter key becomes an equality condition on the same key, and there are no other conditions. |
| VectorStore.BuildWhere | src/storage/vector_store_simple.py:200-204 | The loop builds `WhereOf`. An empty filter gives an empty where-clause. |
| VectorStore.SearchWhere | src/storage/vector_store_simple.py:200-204 | There is no where-clause exactly when the filter is absent or empty. |
| VectorStore.DeleteDocuments | src/storage/vector_store_simple.py:319-340 | The deletion condition has one equality per filter key and nothing else, and is built even from an empty filter. The result is whether the collection's delete call succeeds. |
| VectorStore.Fresh | src/storage/vector_store_simple.py:268-308 | Broadening keeps only hits whose text is not already among the first results. |
| VectorStore.Broaden | src/storage/vector_store_simple.py:259-310 | The broadening loop adds exactly the fresh hits of the wider query. |
| VectorStore.SearchResultShape | src/storage/vector_store_simple.py:183-317 | The search result has at most k hits, each with a relevance in [0, 1] and a numeric score. It starts with the first-pass hits in order. Every later hit repeats no first-pass text. A failed first query gives the empty list. |
| VectorStore.Search | src/storage/vector_store_simple.py:183-317 | Search returns the specified result. It has at most k hits, each with a relevance in range and a numeric score. A failed first query gives the empty list. |
| VectorStore.DocIdsDistinct | src/storage/vector_store_simple.py:164 | Ids `hash_index` built from two different indices never collide, whatever the hashes. |
| VectorStore.AddDocuments | src/storage/vector_store_simple.py:146-181 | An empty batch is refused. Otherwise texts, metadatas and ids line up one per document and the ids are distinct. |
| VectorStore.HybridSearch | src/storage/vector_store_simple.py:411-457 | The hybrid result has at most k hits, in non-increasing combined score, with no two sharing a content hash. Every keyword score is 0, since the keyword search finds nothing. |
| VectorStore.TakeKeepsFusion | src/storage/vector_store_simple.py:313 | Cutting the fused list to k keeps its order and its hash-distinctness. |
| Fusion.VectorHit | src/storage/vector_store_simple.py:473-478 | A vector hit keeps its text and other metadata. It gains the three score keys, and its combined score is the weight times its relevance. |
| Fusion.KeywordHit | src/storage/vector_store_simple.py:481-486 | A keyword hit keeps its text and other metadata. Its keyword score is 0.5 and its combined score is the keyword weight times 0.5. |
| Fusion.Weighted | src/storage/vector_store_simple.py:473-486 | The weighted list is the vector hits, then the keyword hits, each weighted in place. |
| Fusion.DedupHashes | src/storage/vector_store_simple.py:492-498 | De-duplication loses no content hash. |
| Fusion.DedupDistinct | src/storage/vector_store_simple.py:492-498 | After de-duplication no two results share a content hash. |
| Fusion.DedupKeepsFirst | src/storage/vector_store_simple.py:492-498 | The first document with each hash survives de-duplication. |
| Fusion.DedupSorted | src/storage/vector_store_simple.py:489-498 | De-duplicating a sorted list keeps it sorted. |
| Fusion.WeighHits | src/storage/vector_store_simple.py:473-486 | The weighting loop fails exactly when some vector hit has no numeric relevance. Otherwise it yields `Weighted`. |
| Fusion.WeighVectorHits | src/storage/vector_store_simple.py:473-478 | The first loop fails exactly when some vector hit has no numeric relevance. Otherwise it weighs every vector hit, in order. |
| Fusion.WeighKeywordHits | src/storage/vector_store_simple.py:481-486 | The second loop keeps the weighed vector hits and appends every keyword hit, weighed, in order. |
| Fusion.DedupByHash | src/storage/vector_store_simple.py:492-498 | The de-duplication loop yields the first document of each hash and keeps every hash. |
| Fusion.FusionResults | src/storage/vector_store_simple.py:465-500 | Fusion fails exactly on a non-numeric relevance. Its output is sorted by combined score, has distinct hashes, and covers every hash of the input. |
| Fusion.KeywordSearch | src/storage/vector_store_simple.py:459-463 | The keyword search returns no documents. |
| Fusion.FusionOfVectorHitsOnly | src/storage/vector_store_simple.py:465-500 | With no keyword hits, fusion is weighting, sorting and de-duplication of the vector hits alone. |
| LegacyVectorStore.LegacyHits | src/storage/vector_store.py:115-130 | Conversion succeeds exactly when every hit has a distance. Each hit keeps its text, and its relevance is `1 - distance`. |
| LegacyVectorStore.LegacyRelevanceCanBeNegative | src/storage/vector_store.py:127 | A distance of 1.5 gives a relevance of -0.5: this store does not clamp relevance to [0, 1]. |
| LegacyVectorStore.LegacySearchResult | src/storage/vector_store.py:91-146 | The result has at most k documents. |
| LegacyVectorStore.LegacySearch | src/storage/vector_store.py:91-146 | The search returns the specified result: at most k documents, with the first-pass hits carrying `1 - distance`. |
| LegacyVectorStore.LegacyHybridSearch | src/storage/vector_store.py:208-301 | The hybrid result has at most k hits, sorted by combined score, with distinct hashes. |
| Embeddings.HashComponent | src/storage/embedding_manager.py:217-220 | Every component of a text-hash vector lies in [0, 0.999]. |
| Embeddings.HashVector | src/storage/embedding_manager.py:209-230 | A text-hash vector has the configured dimension, and its i-th entry depends only on the text and i. |
| Embeddings.HashVectors | src/storage/embedding_manager.py:209-230 | There is one vector per text, each the hash vector of that text. |
| Embeddings.HashVectorsInRange | src/storage/embedding_manager.py:209-230 | Every vector has exactly the configured number of components, so the length correction never applies. Every component lies in [0, 0.999]. |
| Embeddings.Lookup | src/storage/embedding_manager.py:175-180 | A cache lookup finds a value exactly when some entry has that key, and the value found is one stored under the key. |
| Embeddings.LookupAppended | src/storage/embedding_manager.py:195 | Appending an entry does not change an existing answer. It makes a missing key return the new value. |
| Embeddings.AfterEviction | src/storage/embedding_manager.py:189-192 | A full cache drops its oldest half. A cache that is not full is unchanged. |
| Embeddings.EmbeddingManager.constructor | src/storage/embedding_manager.py:26-91 | The manager starts with an empty, enabled cache and dimension 384. Its method is sentence-transformers when the local model loads, otherwise text-hash. |
| Embeddings.EmbeddingManager.TryTextHash | src/storage/embedding_manager.py:120-124 | Selecting text-hash always succeeds and sets the dimension to 384. |
| Embeddings.EmbeddingManager.EmbedTextHash | src/storage/embedding_manager.py:209-230 | The loop returns the hash vectors of the texts and leaves the cache alone. |
| Embeddings.EmbeddingManager.EmbedDocuments | src/storage/embedding_manager.py:139-162 | Documents are embedded by the selected backend. The fallback is text-hash. |
| Embeddings.Computed | src/storage/embedding_manager.py:183-184 | An empty embedding result becomes a zero vector of the configured dimension. |
| Embeddings.EmbeddingManager.EmbedQuery | src/storage/embedding_manager.py:164-199 | A cache hit returns the cached vector. A miss computes the vector and caches it, evicting first when the cache is full. A disabled cache is never touched. Afterwards, if the cache is enabled, it holds the query's vector. |
| Embeddings.EmbeddingManager.Evict | src/storage/embedding_manager.py:188-193 | Eviction removes the oldest half of the cache. |
| Embeddings.EmbeddingManager.ClearCache | src/storage/embedding_manager.py:316-320 | Clearing empties the cache and changes nothing else. |
| Embeddings.EmbeddingManager.SetCacheEnabled | src/storage/embedding_manager.py:331-333 | Only the enabled flag changes. |
| Embeddings.QueryTwice | src/storage/embedding_manager.py:164-199 | Asking the same query twice with the cache enabled gives the same vector. |
| Splitter.Paragraphs | src/ingestion/document_loader_simple.py:30 | Paragraphs are the stripped blocks between blank lines, and none of them is empty. |
| Splitter.Overlap | src/ingestion/document_loader_simple.py:41-42 | The overlap carried into the next chunk is a suffix of the current chunk. |
| Splitter.SimpleTextSplitter | src/ingestion/document_loader_simple.py:18-83 | The splitter returns the specified chunks. Empty text gives no chunks. With a positive size, no chunk is empty. |
| Splitter.RefineChunks | src/ingestion/document_loader_simple.py:56-81 | The second loop turns each packed chunk into its refined pieces, in order. |
| Splitter.PackParagraphs | src/ingestion/document_loader_simple.py:35-53 | The paragraph-packing loop yields the specified first pass. |
| Splitter.RefineChunk | src/ingestion/document_loader_simple.py:56-81 | The sentence loop yields the specified refinement of one chunk. |
| Splitter.SplitNonEmpty | src/ingestion/document_loader_simple.py:18-83 | No chunk produced by the splitter is empty. |
| Splitter.ShortChunkKept | src/ingestion/document_loader_simple.py:58-59 | A chunk within the size limit passes the second pass unchanged, in place. |
| Splitter.SecondPassShort | src/ingestion/document_loader_simple.py:56-81 | When every chunk is within the size limit, the second pass is the identity. |
| Splitter.SingleParagraph | src/ingestion/document_loader_simple.py:18-83 | A short text with no blank line is a single chunk: the stripped text. |
| Splitter.ChunkMetadata | src/ingestion/document_loader_simple.py:137-151 | Each chunk records its source, file name, index, chunk total, type and size. It carries a content hash exactly when one is given. |
| Splitter.ChunkDocuments | src/ingestion/document_loader_simple.py:137-151 | There is one document per chunk, carrying the chunk text and the metadata of its index. |
| Classify.Summary | src/ingestion/document_loader_simple.py:335 | The summary is the content itself up to 100 characters. Longer content becomes its first 100 characters followed by "...". |
| Classify.ArgMax | src/ingestion/document_loader_simple.py:310-315 | Returns the first index of a maximal score. |
| Classify.WeightedRulesCategories | src/ingestion/document_loader_simple.py:230-261 | There are six weighted rules, one per category in order, each with a positive weight and non-empty keywords. |
| Classify.FinalScores | src/ingestion/document_loader_simple.py:277-307 | There is one final score per category. |
| Classify.FinalScoresNonNegative | src/ingestion/document_loader_simple.py:277-307 | No category score is negative. |
| Classify.WeightedPriorityRules | src/ingestion/document_loader_simple.py:318-332 | The priority is always one of the three levels, decided by the first matching keyword group. |
| Classify.ChooseCategory | src/ingestion/document_loader_simple.py:310-315 | The chosen category is a known one. All-zero scores choose "参考" with confidence 0.3. Otherwise the choice is the first best category, with confidence `score / (sum of scores + 0.001)`, strictly between 0 and 1. |
| Classify.ScoreCategories | src/ingestion/document_loader_simple.py:277-307 | The scoring loops compute the specified final scores. |
| Classify.ScoreRule | src/ingestion/document_loader_simple.py:278-301 | For one category, the two inner loops give the filename score times 0.4 plus the normalised keyword score times 0.6. |
| Classify.PriorityOf | src/ingestion/document_loader_simple.py:318-332 | The priority loop computes the specified priority. |
| Classify.ClassifyWeighted | src/ingestion/document_loader_simple.py:263-350 | The classifier yields a known category and priority, and at most five distinct tags joined as text. |
| Classify.Presence | src/ingestion/document_loader.py:184-195 | A category's score counts how many of its keywords occur, so it is at most the number of keywords. |
| Classify.PresenceScores | src/ingestion/document_loader.py:184-195 | There are six scores, each the presence count of its category. |
| Classify.PresenceChoice | src/ingestion/document_loader.py:196-197 | The choice is a first maximal category. All-zero scores choose "参考". |
| Classify.PresencePriority | src/ingestion/document_loader.py:198-203 | The priority is "高" exactly when the text mentions 重要 or urgent. It is "中" exactly when it mentions neither and is longer than 2000 characters. |
| Classify.PresenceConfidence | src/ingestion/document_loader.py:213 | The confidence is non-negative. For a text of at most 100 words it is the raw score. |
| Classify.LoaderClassification | src/ingestion/document_loader.py:161-214 | The older loader yields a known category and priority with non-negative confidence. Its tags stay a list and it records no method. |
| Classify.LoaderTags | src/ingestion/document_loader.py:216-232 | The older loader's tags are the ranked keywords of the content. |
| Classify.RulesClassification | src/ingestion/document_classifier.py:177-233 | The rules fallback yields a known category and priority, non-negative confidence and the 100-character summary, marked as "rules". |
| DocumentClassifier.FirstCategoryIn | src/ingestion/document_classifier.py:133-136 | A category is found exactly when the line contains one, and the first such category is taken. |
| DocumentClassifier.PriorityIn | src/ingestion/document_classifier.py:140-145 | The priority read from a line is always a valid level. |
| DocumentClassifier.TagsIn | src/ingestion/document_classifier.py:149-152 | No parsed tag is empty. |
| DocumentClassifier.EnglishLabelsNeverMatch | src/ingestion/document_classifier.py:131-154 | A lower-cased line never contains "Category", "Priority", "Tag" or "Summary", so the English labels the parser looks for can never match. |
| DocumentClassifier.OneFieldPerLine | src/ingestion/document_classifier.py:126-158 | Each line updates at most one field, in the order category, priority, tags, summary. |
| DocumentClassifier.LineStepValid | src/ingestion/document_classifier.py:126-158 | Reading a line keeps the category and priority valid. |
| DocumentClassifier.ReadLinesValid | src/ingestion/document_classifier.py:126-166 | After all lines the category and priority are valid, and the summary is non-empty or the default. |
| DocumentClassifier.ReadPriorityDefault | src/ingestion/document_classifier.py:121-158 | With no priority line the priority stays "中". |
| DocumentClassifier.ReadLine | src/ingestion/document_classifier.py:126-158 | The line-reading method performs the specified step. |
| DocumentClassifier.ParseLlmResponse | src/ingestion/document_classifier.py:106-175 | The parsed result has a valid category and priority, at most five tags, confidence 0.85 and method "llm". Its summary is longer than 10 characters or is the content prefix with "...". |
| DocumentClassifier.ReadReply | src/ingestion/document_classifier.py:117-158 | The line loop folds every reply line into the category, priority, tags and summary, starting from the defaults. |
| DocumentClassifier.FindCategory | src/ingestion/document_classifier.py:133-136 | The category loop stops at the first known category that the line contains. |
| DocumentClassifier.ClassifyDocument | src/ingestion/document_classifier.py:34-55 | The LLM is used exactly when it is enabled and replies, and the result is then the parsed reply. Otherwise the result is the rules classification. The category is always valid. |
| Keywords.FrequenciesCorrect | src/ingestion/document_loader_simple.py:352-367 | Each word is counted exactly as often as it occurs, and each counted word occurs. |
| Keywords.KeywordsRanked | src/ingestion/document_loader_simple.py:352-367 | Keywords come in non-increasing frequency, ties in first-occurrence order. |
| Keywords.KeywordsAreTop | src/ingestion/document_loader_simple.py:352-367 | No word left out is more frequent than a chosen keyword. There are at most n keywords and they are distinct. |
| Keywords.LeftOutNoMoreFrequent | src/ingestion/document_loader_simple.py:366-367 | No input word left out of the keywords is more frequent than any chosen keyword. |
| Keywords.ShortListHasAll | src/ingestion/document_loader_simple.py:366-367 | Fewer keywords than asked for means every input word is a keyword. |
| Keywords.CountWords | src/ingestion/document_loader_simple.py:352-367 | The counting loop computes the word frequencies. |
| Keywords.FindWord | src/ingestion/document_loader_simple.py:364 | The lookup finds the position of the word in the frequency list, or reports that no entry has it. |
| Keywords.Extract | src/ingestion/document_loader_simple.py:352-367 | At most n distinct keywords, each accepted by the word filter. |
| Settings.OptimalEmbeddingMethod | config/settings.py:69-89 | An explicit method is used as given. Automatic selection prefers OpenAI with a key, then sentence-transformers when importable, then text-hash. |
| Settings.AutoSelectionTiers | config/settings.py:69-89 | Automatic selection never yields "auto" or an empty method, and it yields "openai" exactly when a key is set. |
| Settings.Validate | config/settings.py:92-123 | Validation always succeeds. A missing DeepSeek key always warns. A missing OpenAI key warns only when OpenAI is chosen. |
| SearchHistory.Append | src/utils/search_history.py:29 | The bounded deque keeps the newest entries, at most the bound. |
| SearchHistory.AfterAddRules | src/utils/search_history.py:62-100 | A blank query changes nothing. A repeat of the last query with the same mode leaves the history unchanged. Otherwise a record is appended within the bound. |
| SearchHistory.Recent | src/utils/search_history.py:102-115 | Returns the newest `limit` entries, newest first. A limit of 0 returns the whole history. |
| SearchHistory.Matching | src/utils/search_history.py:117-138 | The result holds exactly the entries whose query contains the keyword, ignoring case. |
| SearchHistory.UniqueCount | src/utils/search_history.py:146-175 | The number of distinct queries counted equals the number of distinct query strings. |
| SearchHistory.ChoicesDrawn | src/utils/search_history.py:207-226 | Dropdown choices are distinct, non-empty queries taken from the records. |
| SearchHistory.ChoicesComplete | src/utils/search_history.py:207-226 | Every non-empty query of the records appears among the choices. |
| SearchHistory.ChoicesOrdered | src/utils/search_history.py:207-226 | Choices keep the order of first appearance. |
| SearchHistory.SearchHistoryManager.constructor | src/utils/search_history.py:19-35 | A new manager has an empty history with the given bound. |
| SearchHistory.SearchHistoryManager.LoadHistory | src/utils/search_history.py:37-50 | Loading keeps the newest records within the bound. Missing data gives an empty history. |
| SearchHistory.SearchHistoryManager.AddSearch | src/utils/search_history.py:62-100 | Adding a search performs the specified update and keeps the history within its bound. |
| SearchHistory.SearchHistoryManager.GetRecent | src/utils/search_history.py:102-115 | Returns the newest entries, newest first, limited as specified. |
| SearchHistory.SearchHistoryManager.SearchHistory | src/utils/search_history.py:117-138 | An empty keyword gives the ten most recent entries. Otherwise the result is the matching entries, newest first. |
| SearchHistory.SearchHistoryManager.ClearHistory | src/utils/search_history.py:140-144 | Clearing empties the history. |
| SearchHistory.SearchHistoryManager.GetStatistics | src/utils/search_history.py:146-175 | The statistics count all and distinct queries, and list at most five most common queries by non-increasing count. |
| SearchHistory.SearchHistoryManager.DropdownChoices | src/utils/search_history.py:207-226 | The dropdown lists distinct, non-empty recent queries. |
| SearchHistory.DistinctQueries | src/utils/search_history.py:219-226 | The seen-set loop keeps the first occurrence of each non-empty query, in order. |
| Helpers.TruncateText | src/utils/helpers.py:36-40 | A text within the limit is unchanged. A longer one becomes the limit length, keeping its prefix and ending in "...". |
| Helpers.Masked | src/utils/helpers.py:113-115 | Masking keeps the length and replaces exactly the unsafe characters by '_'. |
| Helpers.ReplaceUnsafe | src/utils/helpers.py:113-115 | The replacement loop masks every unsafe character and leaves none behind. |
| Helpers.SplitExt | src/utils/helpers.py:119 | The name splits into stem and extension. The extension starts at the last dot and contains no other dot. |
| Helpers.SanitizeFilenameAsWritten | src/utils/helpers.py:110-122 | As written, a name over 200 characters raises, because `os` is not imported. A shorter name is masked. |
| Helpers.LongNameFails | src/utils/helpers.py:118-120 | The name "a"*201 makes the as-written function fail. |
| Helpers.SanitizeFilename | src/utils/helpers.py:110-122 | The result has no unsafe characters. A name within 200 characters is masked only. A longer one is shortened, keeping its extension. |
| Helpers.ShortenKeepsExtension | src/utils/helpers.py:118-120 | Shortening a masked name over 200 characters keeps it free of unsafe characters and ending in its extension. With an extension of at most 200 characters, the result is exactly 200 long. |
| Helpers.ExtractKeywords | src/utils/helpers.py:73-100 | The result is at most the requested number of distinct keywords, none a stop word, each longer than one character. Empty text gives none. |
| Helpers.ScaleDown | src/utils/helpers.py:26-32 | The size is divided by 1024 per unit step and the product is unchanged. Below the top unit the value is under 1024. |
| Helpers.FormatFileSize | src/utils/helpers.py:21-34 | Zero bytes is "0B". Any other size is scaled to the largest unit that keeps it under 1024. |
| Helpers.Batches | src/utils/helpers.py:149-160 | Each batch is non-empty and no larger than the batch size. |
| Helpers.BatchesPartition | src/utils/helpers.py:149-160 | The batches concatenate back to the items. There are ceil(n/size) of them and all but the last are full. |
| Helpers.CeilDivFormula | src/utils/helpers.py:149-160 | The batch count covers the items and is the smallest count that does. |
| Helpers.BatchProcess | src/utils/helpers.py:149-160 | A zero batch size fails. A negative size gives no results. Otherwise each batch is processed once, in order. |
| Helpers.RunBatches | src/utils/helpers.py:151-160 | The loop processes each batch in order. |
| Helpers.GenerateDocumentId | src/utils/helpers.py:14-19 | The id is the digest of `filename:content`. |
| Helpers.IdInputSeparatesContents | src/utils/helpers.py:14-19 | For one file name, different contents give different digest inputs. |
| Helpers.IdInputAmbiguous | src/utils/helpers.py:14-19 | Across file names the input is ambiguous: ("a", "b:c") and ("a:b", "c") give the same id. |
| Helpers.CreateResponseDict | src/utils/helpers.py:135-147 | The response has status, message, timestamp and data plus the extra keys. An extra timestamp overrides the clock. |
| Rag.NextChunkNumber | src/generation/llm_manager.py:355-356 | The chunk number is `chunk_id + 1`. It is undefined exactly when chunk_id is a string. |
| Rag.PartsFail | src/generation/llm_manager.py:347-360 | Building the context fails exactly when some document's chunk id is a string while sources are included. |
| Rag.PartsShape | src/generation/llm_manager.py:347-360 | There is one numbered part per document, holding its text. |
| Rag.ContextMentionsEveryDocument | src/generation/llm_manager.py:347-360 | The context contains every document's text. |
| Rag.BuildContext | src/generation/llm_manager.py:347-360 | The loop builds the specified context and fails exactly on a string chunk id. |
| Rag.DocCountFactor | src/generation/llm_manager.py:369 | The document factor is n/3, capped at 1 from three documents on. |
| Rag.AnswerFactor | src/generation/llm_manager.py:380-384 | A refusal scores 0.3. Any other answer scores length/200, capped at 1. |
| Rag.Relevances | src/generation/llm_manager.py:373-377 | There is one relevance per document, 0.5 where none is stored. It is undefined exactly when one is not a number. |
| Rag.EstimateConfidence | src/generation/llm_manager.py:362-394 | The confidence always lies in [0, 1]. A failure to read a factor gives 0.5. |
| Rag.ConfidenceIsMean | src/generation/llm_manager.py:362-394 | With relevances in [0, 1], the confidence is the mean of the factors. |
| Rag.FactorsInUnit | src/generation/llm_manager.py:366-385 | With relevances in [0, 1], there is at least one factor and each lies in [0, 1]. |
| Rag.FirstPerFileDistinct | src/generation/llm_manager.py:396-415 | The source list names each file at most once. |
| Rag.FirstPerFileComplete | src/generation/llm_manager.py:396-415 | Every file of a document with metadata is listed. |
| Rag.FirstPerFileFirst | src/generation/llm_manager.py:396-415 | Each listed source comes from the first document of its file. |
| Rag.ExtractSources | src/generation/llm_manager.py:396-415 | The sources are the first-per-file entries, sorted by non-increasing relevance as a permutation. |
| Rag.GenerateAnswer | src/generation/llm_manager.py:187-251 | No documents gives the fixed answer with confidence 0. Success needs documents, a context and a model reply, and returns that reply. The confidence is always in [0, 1]. |
| Rag.Normalise | src/generation/llm_manager.py:292-296 | An invalid category or priority is replaced by "参考" or "中". Valid ones and all other keys are kept. |
| Rag.ClassifyWithModel | src/generation/llm_manager.py:252-308 | The category and priority are always valid. No reply, a reply without a `{`…`}` span, or a span that decodes to something other than an object gives the 分类失败 reply with confidence 0.0. A span that does not decode gives the 未分类 default with confidence 0.5. |
| Rag.JsonSpan | src/generation/llm_manager.py:275-279 | A JSON span exists exactly when a `{` occurs and the last `}` lies after it. The span runs from the first `{` through the last `}`. |
| Rag.ModelFieldsKept | src/generation/llm_manager.py:273-298 | A decoded JSON object keeps every field other than category and priority unchanged. |
| Prompts.GetModelConfig | src/generation/prompts.py:136-159 | Known names get their own configuration and unknown names get the chat one. Each names a model and a token limit. |
| Prompts.EvaluateAnswerQuality | src/generation/prompts.py:161-174 | The overall score is the mean of the metrics and lies in [0.3, 0.5]. It is 0.3 exactly for an empty answer and 0.5 exactly from 200 characters on. |
| GradioApp.Check | src/api/gradio_app.py:111-143 | A file is accepted exactly when it exists, is supported, is no larger than 50 MB, is non-empty and is readable. Size and emptiness are reported as such. |
| GradioApp.Decide | src/api/gradio_app.py:167-197 | A file is added when no chunk of it is stored. It is skipped exactly when its first stored chunk has the same hash. Otherwise it is replaced. |
| GradioApp.Without | src/api/gradio_app.py:193-197 | Deleting a file removes exactly its chunks. |
| GradioApp.Merge | src/api/gradio_app.py:214-217 | Classification values override metadata. Missing values keep the metadata, and no other keys appear. |
| GradioApp.Stamp | src/api/gradio_app.py:217-221 | A stamped chunk keeps its text and records the file hash and upload time. |
| GradioApp.StampAll | src/api/gradio_app.py:208-221 | Every chunk of a file is stamped with the same hash and time. |
| GradioApp.HandleFileRules | src/api/gradio_app.py:111-224 | Each file adds exactly one to processed, skipped or failed. Rejected and skipped files leave the store and the pending chunks alone. A replaced file is listed as updated whatever the delete returns: its chunks leave the store when the delete succeeds, and all stay when it fails. |
| GradioApp.ReplaceDeletesBeforeLoading | src/api/gradio_app.py:178-206 | If a changed file then fails to load, it is listed both as updated and as failed. Its old chunks are already gone when the delete succeeded, and still stored when it failed. |
| GradioApp.HandleAllCounts | src/api/gradio_app.py:99-224 | Processed, skipped and failed together grow by the number of files. |
| GradioApp.GroupDistinct | src/api/gradio_app.py:645-660 | The document list has one row per file name. |
| GradioApp.GroupCovers | src/api/gradio_app.py:645-660 | Every stored chunk's file has a row. |
| GradioApp.GroupChunks | src/api/gradio_app.py:645-660 | Each row's chunk count is the number of chunks of that file. |
| GradioApp.GroupTotal | src/api/gradio_app.py:645-660 | The row counts add up to the number of chunks. |
| GradioApp.GroupFirstSeen | src/api/gradio_app.py:647-659 | Each row's details come from the first chunk of its file. |
| GradioApp.PreviewText | src/api/gradio_app.py:748-749 | A chunk of at most 500 characters is shown whole. A longer one keeps its first 500 characters and is marked as cut. |
| GradioApp.KnowledgeApp.constructor | src/api/gradio_app.py:25-60 | The application starts with the chunks already in the persistent store. |
| GradioApp.KnowledgeApp.LoadAndProcessFiles | src/api/gradio_app.py:62-318 | No files reports so and changes nothing. Otherwise the counts total the files, and pending chunks are stored exactly when there are some and the add succeeds. |
| GradioApp.KnowledgeApp.GetDocumentList | src/api/gradio_app.py:630-690 | The grouping loops yield one row per file. When the list is shown, its counts total the stored chunks. |
| GradioApp.KnowledgeApp.PreviewDocument | src/api/gradio_app.py:692-763 | Blank and unknown names are reported. Otherwise the chunk total and preview count are given, with at most the requested number of chunks, in chunk order. |
| GradioApp.PreviewOrder | src/api/gradio_app.py:719-723 | The preview sort is a permutation of the file's chunks, in non-decreasing chunk id. |
| GradioApp.ContextQuery | src/api/gradio_app.py:342-356 | With under two history entries the question is used alone. Otherwise the query ends with the question. |
| GradioApp.ContextPartsFrom | src/api/gradio_app.py:345-352 | Each context part is a labelled entry of the history. A user entry is kept whole, and an assistant entry is cut to 100 characters. |
| GradioApp.ContextQuerySources | src/api/gradio_app.py:342-356 | At most two context parts are used, all from the last six history entries. |
| GradioApp.ProcessUserMessage | src/api/gradio_app.py:975-1006 | A blank message changes nothing. A reply appends the question/answer pair and keeps at most 20 entries. An error appends the pair with the error text and no cap. |
| GradioApp.HistoryBounded | src/api/gradio_app.py:988-990 | A history within 20 entries stays within 20 after a successful reply. |
| GradioApp.SimpleSuggestions | src/api/gradio_app.py:532-556 | There are at most three suggestions, always including the detail question. A category present leads with a question about one of them. |

## Left out

- Rag.ExtractSources, Rag.GenerateAnswer: require every stored relevance to be numeric, because both stores write floats there. A text relevance would make the Python sort raise, and `generate_answer` would then return its error answer.
- Helpers.ExtractKeywords: `max_keywords` is a natural number. A negative slice bound is not modelled.
- Persistence: the JSON files of the search history (`_save_history`, the file read in `_load_history`) are left out. The loaded data is a parameter.
- Clocks, md5 and Python's `hash()` are parameters.
- Settings: `CHUNK_SIZE`, `CHUNK_OVERLAP` and `TOP_K` are read from the environment with `int(os.getenv(...))`. The model fixes them at their defaults of 1000, 200 and 5, so overrides and the `ValueError` on a non-numeric value are not modelled. `VectorStore.FirstPassSize` and the legacy store use `TOP_K` at 5.
- VectorStore.DeleteDocuments: what Chroma deletes for a given where-clause, including the empty one, is not modelled. The collection's delete call is a parameter that says whether it succeeds.
- String formatting (`.1f`, `.2f`, `round(..., 3)`) and the rendering of numbers are not modelled: `Rag.Render` writes a number as its integer part, so a float such as `2.0` renders as "2" where Python prints "2.0", and non-integral values lose their fraction. Sizes and times in the document list and the upload report are kept as values. The `classification_scores` field that `classify_document` returns in both classifiers is not part of `Classify.Classification`.
- Left out of `src/utils/helpers.py` and `src/utils/search_history.py`: `format_history_for_display`, `safe_json_loads`, `safe_json_dumps`, `measure_time`, `validate_file_path`, `format_duration`, `ErrorHandler`. They are formatting, timing or file-system checks.
- Unicode `lower()` and `isalnum()` are approximated: ASCII letters are lower-cased, and CJK ideographs count as alphanumeric.
- The language model calls (`_classify_with_llm`, `generate_summary`, `ModelRouter`) are not modelled. Their replies are parameters.
- `chat_with_knowledge` is modelled only in its context query and history update. Its retrieval and answering go through the modules above.
- The Markdown texts of the upload report and of the document preview are not modelled, nor the Gradio progress callbacks.
- The recovery checkpoints of `load_and_process_files` are not modelled. `src/utils/recovery` is not part of this model.
- Load failures: `PermissionError` and `IOError` during the hash read are merged into one read error. Exceptions other than a failed load or add are not modelled.
- `OverflowError` from `fromtimestamp` in the document list is not modelled.
- Embedding backends other than text-hash: the sentence-transformers output is a parameter. The bag-of-words fallback is never reached, because text-hash always succeeds.
- The singleton `__new__` of the embedding manager is not modelled: one manager is one object.
- `get_stats`, `reset`, `get_cache_stats`, `get_method_info` and `get_available_methods` are not modelled. They only report.
- `delete_document_by_filename` and the other Gradio UI handlers are not modelled.
- Python's `1 == True` equality of dictionary keys and values is not modelled.
- Sorting by a mix of string and number keys raises in Python. The model treats that as an error result where the source can reach it.

## Findings

| source | as written | input that shows it | evidently intended | confidence | as-written member | corrected member |
|---|---|---|---|---|---|---|
| src/utils/helpers.py:118-120 | a name longer than 200 characters calls `os.path.splitext`, but `os` is never imported (imports at lines 5-10), so it raises `NameError` | `"a" * 201` | shorten the name to 200 characters, keeping its extension | not executed | Helpers.LongNameFails | Helpers.SanitizeFilename |
