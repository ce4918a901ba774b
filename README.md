# MCA Study Bot — a verified model of its core

MCA Study Bot is a retrieval-augmented study assistant. An upload turns a
PDF into text chunks: pages are extracted and tagged when they look
mathematical, then cut into overlapping segments that carry page metadata.
The chunks are stored in a Qdrant vector collection under ids derived from
an md5 digest. A chat turn does four things:

- it strips the question and answers greetings directly;
- otherwise it searches the collection under subject/year filters;
- it hands the best hits and the last two exchanges to one of three LLM
  clients (Groq, Google Gemini, a local Ollama);
- it lists the de-duplicated sources under the answer.

Around this sit two smaller pieces: a fixed-table login with role-based
pages, and per-session usage statistics.

This project models that core in Dafny, one file per source file:

| file | module | source |
|---|---|---|
| `common.dfy` | `Common`, `Strings`, `PyValues` | Python `str` operations, dict values, truthiness and `str()`, shared by everything |
| `document_processor.dfy` | `DocumentProcessor` | `src/document_processor.py` |
| `math_processor.dfy` | `MathProcessor` | `src/math_processor.py` |
| `vector_store.dfy` | `VectorStore` | `src/vector_store.py` |
| `llm_common.dfy` | `LlmCommon` | document and history selection, shared by the three LLM clients |
| `llm_groq.dfy` | `LlmGroq` | `src/llm_groq.py` |
| `llm_interface.dfy` | `LlmInterface` | `src/llm_interface.py` |
| `llm_ollama.dfy` | `LlmOllama` | `src/llm_ollama.py` |
| `auth.dfy` | `Auth` | `src/auth.py` |
| `stats_manager.dfy` | `StatsManager` | `src/stats_manager.py` |
| `chat.dfy` | `Chat` | `ui/pages/chat.py` |

The model takes the source's own form, file by file.

- **Stateful objects become classes that are updated in place.** The vector
  store is a class whose `points` map (point id to payload) is the Qdrant
  collection. The statistics holder is a class over the optional session
  record. The chat page is a class over `messages` and `history`. Each LLM
  client is a class over its connection fields.
- **Loops become methods with loop invariants.** Each such method is proved
  equal to a specification function, and the properties are proved about
  that function. This covers the chunker loops, the page loops, batching,
  de-duplication, and the retry and context loops.
- **Pure code becomes functions and lemmas.** This covers the regular
  expressions, the prompt builders, the authorization tables and the
  duration text.

Everything the program receives from outside becomes a parameter of the
model:

- the PDF readers and the text splitter;
- the md5 digest;
- the embedding search ranking;
- the LLM SDK calls;
- the clock.

A call that raises is modelled as an outcome value, and an operation that
would propagate an exception returns `None`.

One consequence of the source is proved rather than assumed. The chat page
lists only sources whose `content` field is truthy (ui/pages/chat.py:72), and
the Groq client builds its sources from metadata only, without a `content`
key (src/llm_groq.py:81-85). So no source is ever listed under a Groq answer
(`Chat.GroqSourcesNeverListed`). The model keeps that behaviour as written.

## Model

| member | source | states |
|---|---|---|
| `DocumentProcessor.NoTriggerNoMath` | src/document_processor.py:43-57 | text with no digit-operator, letter-operator, backslash, caret, math symbol or parenthesis trigger and no keyword is not detected as math |
| `DocumentProcessor.HyphenatedWordIsMath` | src/document_processor.py:45 | a letter, '-' and a letter (a hyphenated word) is already detected as math by the variable-expression pattern |
| `DocumentProcessor.DetectMathExamples` | src/document_processor.py:43-57 | the documented math examples (`x^2 + y^2 = z^2`, `5 + 3 = 8`, `\frac{1}{2}`, an integral sign, and `e-mail`) are detected |
| `DocumentProcessor.KeywordStart` | src/document_processor.py:50 | a `\b`-delimited keyword starts at a word boundary with one of the keyword initials |
| `DocumentProcessor.PlainSentenceIsNotMath` | src/document_processor.py:43-57 | an ordinary English sentence is not detected as math |
| `DocumentProcessor.Paragraphs` | src/document_processor.py:78-81 | the kept paragraphs are non-empty and stripped, and there are no more of them than pieces |
| `DocumentProcessor.PackFlatten` | src/document_processor.py:82-97 | greedy packing loses, duplicates and reorders no paragraph |
| `DocumentProcessor.PackFits` | src/document_processor.py:82-97 | every group fits the chunk size unless it is a single over-long paragraph |
| `DocumentProcessor.PackMaximal` | src/document_processor.py:84-90 | two consecutive groups could not have been merged: a group is closed only when the next paragraph would overflow it |
| `DocumentProcessor.ChunkWithMathPreservation` | src/document_processor.py:73-99 | the loop returns exactly the specification's chunks (the paragraph groups, each rejoined with a blank line) |
| `DocumentProcessor.GroupsPartition` | src/document_processor.py:73-99 | the groups partition the text's paragraphs, in order, into groups that fit |
| `DocumentProcessor.MathChunksFit` | src/document_processor.py:82-99 | each chunk is non-empty and stripped, and is within the size or is one paragraph of the text |
| `DocumentProcessor.MathChunksKeepText` | src/document_processor.py:73-99 | rejoining the chunks gives back every paragraph of the text, in order |
| `DocumentProcessor.MathChunksMaximal` | src/document_processor.py:84-90 | no two neighbouring chunks would have fitted together |
| `DocumentProcessor.ParagraphsNone` | src/document_processor.py:78-81 | no paragraph is kept iff every piece is whitespace only |
| `DocumentProcessor.MathChunksNone` | src/document_processor.py:73-99 | there are no chunks iff the text is whitespace only |
| `DocumentProcessor.TextPagesSound` | src/document_processor.py:117-128 | a kept page holds the stripped text and the math flag of the page at its 1-based number, and that page had text |
| `DocumentProcessor.TextPagesComplete` | src/document_processor.py:117-128 | every page whose stripped text is non-empty is kept |
| `DocumentProcessor.TextPagesOrdered` | src/document_processor.py:117-128 | kept pages come in strictly increasing page order |
| `DocumentProcessor.CollectPages` | src/document_processor.py:117-128 | the page loop returns exactly the pages with text |
| `DocumentProcessor.ExtractTextWithLayout` | src/document_processor.py:112-152 | the pdfplumber pages when its pass completes with at least one page; otherwise what pdfplumber collected followed by the PyPDF2 pages |
| `DocumentProcessor.PrimaryPagesWin` | src/document_processor.py:130-131 | a completed pdfplumber pass with pages makes the PyPDF2 reading irrelevant |
| `DocumentProcessor.ExtractedPagesIncreasing` | src/document_processor.py:112-152 | the extracted pages are in strictly increasing page order unless pdfplumber raised after collecting some pages |
| `DocumentProcessor.PartialPlumberRepeatsPage` | src/document_processor.py:127-142 | when pdfplumber raises after keeping page 1, PyPDF2's page 1 is appended after it, so the page order breaks |
| `DocumentProcessor.PageRecordsSound` | src/document_processor.py:173-186 | each record of a page is made from one of its segments, and the segment positions strictly increase along the records, so no segment gives two records |
| `DocumentProcessor.PageRecordsOrdered` | src/document_processor.py:173-186 | every record of a page carries the page's number, the page's segment count as `total_chunks` and a `chunk_id` that is a segment position; the `chunk_id`s strictly increase along the records |
| `DocumentProcessor.PageRecordsComplete` | src/document_processor.py:170-171 | only whitespace-only segments are dropped |
| `DocumentProcessor.ChunkMetadataSpec` | src/document_processor.py:176-185 | the record metadata adds page, chunk_id, total_chunks and has_math, with 0 <= chunk_id < total_chunks, and keeps every document-level key |
| `DocumentProcessor.DocumentRecordsStuck` | src/document_processor.py:160-188 | a page the splitter raises on makes the whole document fail |
| `DocumentProcessor.DocumentRecordsPrefix` | src/document_processor.py:160-188 | records come in page order: those of earlier pages form a prefix |
| `DocumentProcessor.DocumentRecordsOrdered` | src/document_processor.py:160-188 | over pages in increasing page order, every record has 0 <= chunk_id < total_chunks and the number of one of the pages, and (page, chunk_id) strictly increases along the records |
| `DocumentProcessor.SplitPage` | src/document_processor.py:167-171 | a page's segments are the math-aware chunks when the page has math, otherwise the splitter's output, `None` when it raised |
| `DocumentProcessor.TagSegments` | src/document_processor.py:168-186 | the segment loop returns exactly one record per non-blank segment |
| `DocumentProcessor.ChunkDocument` | src/document_processor.py:160-188 | the page loop returns the specification's records, or `None` when the splitter raised |
| `DocumentProcessor.BasenameSpec` | src/document_processor.py:231 | the basename is the longest suffix of the path without '/' |
| `DocumentProcessor.ProcessPdf` | src/document_processor.py:217-243 | `process_pdf` equals its specification: nothing for a missing file or a file without text, otherwise the records of the pages |
| `DocumentProcessor.DocumentRecordsKeep` | src/document_processor.py:176-185 | every record keeps the document-level metadata |
| `DocumentProcessor.DocumentMetadataSpec` | src/document_processor.py:229-236 | the document metadata has source = basename, total_pages = page count, file_path = path, plus the given type, subject and year |
| `DocumentProcessor.DocumentChunksSource` | src/document_processor.py:229-243 | every chunk of a processed file names the file's basename as its source |
| `DocumentProcessor.ProcessedChunksCases` | src/document_processor.py:217-243 | the three cases of `process_pdf`: missing file, no text, and pages |
| `DocumentProcessor.BatchChunksPrefix` | src/document_processor.py:269-297 | the results for the first n paths depend only on those paths |
| `DocumentProcessor.BatchChunksSlice` | src/document_processor.py:275-290 | the results of a batch of paths follow those of the paths before it |
| `DocumentProcessor.ProcessBatch` | src/document_processor.py:278-290 | the inner loop appends every file's chunks in order, skipping a file that raised |
| `DocumentProcessor.BatchProcess` | src/document_processor.py:269-297 | `None` for a zero batch size, nothing for a negative one, otherwise the chunks of all paths in order |
| `DocumentProcessor.BatchChunksComplete` | src/document_processor.py:269-297 | every chunk of a file that did not raise is in the result, and every result chunk comes from one of the files |
| `DocumentProcessor.GetStats` | src/document_processor.py:311-342 | the statistics loop equals its specification |
| `DocumentProcessor.CountsBounded` | src/document_processor.py:320-330 | at most n math chunks and at most n distinct sources; at least one source when n > 0 |
| `DocumentProcessor.MaxPagesBound` | src/document_processor.py:327-333 | the maximum page count is non-negative and at least every chunk's total_pages |
| `DocumentProcessor.StatsSpec` | src/document_processor.py:311-342 | all zeros for no chunks; otherwise the chunk count, math count, source count and maximum page count; `None` exactly when a total_pages value cannot be compared |
| `MathProcessor.LatexPatternsValid` | src/math_processor.py:14-20 | the LaTeX patterns have non-empty delimiters |
| `MathProcessor.TwoDollarsDetected` | src/math_processor.py:24-29 | any text with two dollar signs is detected as holding math |
| `MathProcessor.NoDelimiterNoLatex` | src/math_processor.py:24-29 | text without '$' and without a backslash is not detected |
| `MathProcessor.FindAllEmpty` | src/math_processor.py:33-39 | `findall` finds nothing iff `search` fails |
| `MathProcessor.FindAllSound` | src/math_processor.py:33-39 | every match is a substring of the text that opens and closes with the pattern's delimiters |
| `MathProcessor.ExtractFormulas` | src/math_processor.py:33-39 | the loop over the patterns returns every pattern's matches, pattern by pattern |
| `MathProcessor.NoFormulasIffNoLatex` | src/math_processor.py:24-39 | `extract_formulas` returns nothing iff `detect_math_content` is false |
| `MathProcessor.FormulasAreSubstrings` | src/math_processor.py:33-39 | each extracted formula is a delimited substring of the text |
| `MathProcessor.FirstBreak` | src/math_processor.py:57 | the first sentence break at or after a position, or none, as the split pattern finds it |
| `MathProcessor.SentencesShape` | src/math_processor.py:57 | every sentence but the last ends with '.', '!' or '?', and no sentence contains a break |
| `MathProcessor.StripSpaced` | src/math_processor.py:63-74 | stripping the running chunk string equals stripping the sentences joined by single spaces |
| `MathProcessor.PackCover` | src/math_processor.py:59-74 | the groups hold the sentences in order, and every group is non-empty |
| `MathProcessor.PackBound` | src/math_processor.py:63-70 | a group of two or more sentences keeps its running string within size + 1 |
| `MathProcessor.ChunksSpec` | src/math_processor.py:53-76 | each chunk is the strip of consecutive, non-empty groups of sentences joined by spaces, and together the groups are all the sentences |
| `MathProcessor.GroupsClosed` | src/math_processor.py:63-66 | a chunk ends only where the next sentence would overflow it |
| `MathProcessor.EmptyTextOneEmptyChunk` | src/math_processor.py:57-74 | the empty text yields the single chunk "" |
| `MathProcessor.ChunkWithMathPreservation` | src/math_processor.py:53-76 | the loop (both branches of the math test) returns exactly the specification's chunks |
| `MathProcessor.ReplaceEmpty` | src/math_processor.py:88-90 | `str.replace("", rep)` puts `rep` around every character |
| `MathProcessor.ReplaceIsSplitJoin` | src/math_processor.py:88-90 | replacing a non-empty pattern is splitting at it and joining with the replacement |
| `MathProcessor.ReplaceSelf` | src/math_processor.py:88-90 | replacing a pattern by itself changes nothing |
| `MathProcessor.ReplaceAbsent` | src/math_processor.py:88-90 | replacing a pattern that does not occur changes nothing |
| `MathProcessor.AddMathContext` | src/math_processor.py:86-92 | the loop returns the text with each formula's occurrences wrapped as `[MATH]` + formula + `[/MATH]`, formula by formula |
| `MathProcessor.TaggedStep` | src/math_processor.py:88-90 | each step wraps every occurrence of its formula, and a step whose formula is absent changes nothing |
| `MathProcessor.TaggedAbsent` | src/math_processor.py:86-92 | formulas that do not occur leave the text unchanged |
| `VectorStore.PointId` | src/vector_store.py:184-188 | a point id is below 2**63 - 1 |
| `VectorStore.PayloadSpec` | src/vector_store.py:193-201 | the payload has the metadata's keys plus text/source/type/subject/year/page; metadata values win; missing ones get "Unknown", "general", "General", "N/A", "N/A" |
| `VectorStore.PointsOfCount` | src/vector_store.py:179-203 | one point per chunk that has both 'content' and 'metadata' |
| `VectorStore.ApplySpec` | src/vector_store.py:211-215 | an upsert writes exactly the ids it is given, each holding its last payload, and leaves every other point unchanged |
| `VectorStore.ApplyIdempotent` | src/vector_store.py:211-215 | upserting the same points twice equals upserting them once |
| `VectorStore.UpsertedIdempotent` | src/vector_store.py:161-230 | adding the same chunks twice leaves the collection as adding them once (content-derived ids) |
| `VectorStore.AddBatchStep` | src/vector_store.py:176-218 | writing batch by batch equals writing the chunks in one go; the added count is the number of valid chunks |
| `VectorStore.VectorStore.PreparePoints` | src/vector_store.py:178-203 | the batch loop builds exactly the points of the valid chunks |
| `VectorStore.VectorStore.AddDocuments` | src/vector_store.py:161-230 | an error for no chunks; an exception for a zero batch size; nothing for a negative one; otherwise the chunks up to the failing batch are upserted and counted |
| `VectorStore.SearchFilterSpec` | src/vector_store.py:249-261 | the filter holds one condition per truthy, non-"All" entry, and it is absent iff there is none |
| `VectorStore.Eligible` | src/vector_store.py:262-269 | the server keeps only stored points that meet the filter, in ranking order |
| `VectorStore.Results` | src/vector_store.py:270-282 | one result per hit |
| `VectorStore.ResultsSpec` | src/vector_store.py:271-282 | each result is the hit's text and its five defaulted metadata fields, with its score |
| `VectorStore.Hits` | src/vector_store.py:262-269 | every hit is a stored point of the ranking that meets the filter |
| `VectorStore.SearchSpec` | src/vector_store.py:232-307 | `search` returns at most top_k results, each from a stored point that meets the filter |
| `VectorStore.VectorStore.Search` | src/vector_store.py:232-307 | `search` returns the results of the filtered hits, or [] when it raises |
| `VectorStore.SortedIdsSpec` | src/vector_store.py:109-113 | scrolling visits every id, in strictly ascending order |
| `VectorStore.Scroll` | src/vector_store.py:109-113 | a page holds at most `limit` points |
| `VectorStore.FirstDocsSpec` | src/vector_store.py:114-132 | the listed documents have distinct (source, subject, year, type) keys, cover every key seen, and each comes from the first payload with its key |
| `VectorStore.SortDocsSorted` | src/vector_store.py:134 | the listing is sorted by (subject, year, type, source) |
| `VectorStore.SortDocs` | src/vector_store.py:134 | sorting permutes the documents |
| `VectorStore.ListingSpec` | src/vector_store.py:104-134 | `get_uploaded_documents` lists each key once, sorted, from the key's first payload |
| `VectorStore.VectorStore.DistinctDocuments` | src/vector_store.py:114-132 | the de-duplication loop returns exactly the first document per key |
| `VectorStore.VectorStore.GetUploadedDocuments` | src/vector_store.py:104-159 | the sorted listing of the scrolled page, or [] when scrolling raises |
| `VectorStore.VectorStore.DeleteDocumentByMetadata` | src/vector_store.py:445-470 | removes exactly the points matching all four fields and keeps every other point unchanged; True iff the delete did not raise |
| `VectorStore.OfType` | src/vector_store.py:373-383 | the points of a type are a sub-collection |
| `VectorStore.TypeCountBound` | src/vector_store.py:373-389 | a type's count is at most its number of points and at most the scroll limit |
| `VectorStore.VectorStore.DistinctSources` | src/vector_store.py:384-388 | the loop collects exactly the distinct truthy sources |
| `VectorStore.VectorStore.GetDocumentStatsByType` | src/vector_store.py:365-393 | the five types, each counted, or 0 for a type whose scroll raised |
| `VectorStore.VectorStore.GetStats` | src/vector_store.py:335-363 | the point count three times with the Qdrant status, or zeros with the error |
| `VectorStore.VectorStore.DeleteCollection` | src/vector_store.py:419-443 | an emptied collection unless the drop raised; success iff neither the drop nor the re-creation raised, with the matching message |
| `LlmCommon.TopThree` | src/llm_groq.py:76-77 | at most the first three documents, as a prefix, and none when documents is None |
| `LlmCommon.LastTwo` | src/llm_groq.py:89-90 | at most the last two history entries, as a suffix, and none when history is None |
| `LlmCommon.BlocksContain` | src/llm_groq.py:77-80 | the context contains every document's block |
| `LlmCommon.BlocksEmpty` | src/llm_groq.py:77-80 | the context is empty iff every block is |
| `LlmCommon.SourcesAll` | src/llm_groq.py:77-85 | when no document raises, there is one source per document, in order |
| `LlmCommon.SourcesCount` | src/llm_interface.py:85-94 | the source list has one entry per dict document |
| `LlmGroq.FirstChoice` | src/llm_groq.py:33 | `model or ui_model or env_model or VALID_MODEL` is never empty |
| `LlmGroq.GroqLLM.constructor` | src/llm_groq.py:19-62 | the model is forced to llama-3.1-8b-instant whatever was chosen; connected iff the ping answered |
| `LlmGroq.GroqLLM.Create` | src/llm_groq.py:22-24 | construction fails iff the API key is empty |
| `LlmGroq.HistoryMessagesSpec` | src/llm_groq.py:88-92 | two messages per history entry: the user text, then the assistant text, defaulting to "" |
| `LlmGroq.MessagesShape` | src/llm_groq.py:105-116 | the system prompt comes first; the context pair appears iff there is context; then the history; the query comes last |
| `LlmGroq.ContextIffDocuments` | src/llm_groq.py:76-80 | the context is non-empty iff documents were given |
| `LlmGroq.ContextHoldsTexts` | src/llm_groq.py:77-80 | the context contains the first 600 characters of each of the top three documents |
| `LlmGroq.SourcesSpec` | src/llm_groq.py:81-85 | one source per top document: its source, subject and page, defaulted |
| `LlmGroq.Retried` | src/llm_groq.py:118-148 | success iff one of the two attempts answers, the first answer winning; otherwise the error reply with no sources |
| `LlmGroq.BuildContext` | src/llm_groq.py:72-85 | the context loop yields nothing exactly when a top document is not a dict, and otherwise the numbered blocks and the source entries of the top three documents |
| `LlmGroq.BuildHistory` | src/llm_groq.py:87-92 | the history loop yields a user and an assistant message for each of the last two exchanges |
| `LlmGroq.Retry` | src/llm_groq.py:118-148 | the retry loop's reply is the one `Retried` specifies: the first answered attempt of two, or the error reply |
| `LlmGroq.GroqLLM.GenerateAnswer` | src/llm_groq.py:64-148 | raises iff a top document is not a dict; otherwise the retried reply for the built messages |
| `LlmGroq.GroqLLM.GetStatus` | src/llm_groq.py:150-157 | the connection, the model, "Groq", and the matching status text |
| `LlmInterface.ConnectionAsWritten` | src/llm_interface.py:37-47 | the value `_verify_connection` returns is truthy iff the ping produced non-empty text |
| `LlmInterface.Connection` | src/llm_interface.py:24-30 | the connection flag is the truthiness of the ping's result |
| `LlmInterface.ConnectedIsText` | src/llm_interface.py:41 | a ping answering "Hi" leaves the text "Hi", not True, as the connection status |
| `LlmInterface.SleepFor` | src/llm_interface.py:49-56 | the pause is between 0 and 30 s, and positive iff both clock readings fall before the reset time |
| `LlmInterface.LLMInterface.constructor` | src/llm_interface.py:16-30 | connected per the ping; the reset time starts at 0 |
| `LlmInterface.LLMInterface.Create` | src/llm_interface.py:19-20 | construction fails iff the API key is empty |
| `LlmInterface.LLMInterface.WaitForRateLimit` | src/llm_interface.py:49-56 | sleeps `SleepFor` and clears the reset time exactly when it slept |
| `LlmInterface.Answer` | src/llm_interface.py:125-160 | success iff the model returned non-empty text, with the sources; rate_limited iff the error mentions 429 or quota; no sources otherwise |
| `LlmInterface.LLMInterface.GenerateAnswer` | src/llm_interface.py:119-160 | the reply to the built prompt; a rate-limit error sets the reset time 30 s after the error |
| `LlmInterface.BuildContext` | src/llm_interface.py:80-94 | the context loop yields the numbered blocks and the source entries of the dict documents among the top three |
| `LlmInterface.BuildHistory` | src/llm_interface.py:96-102 | the history loop yields the Q/A text of the last two exchanges |
| `LlmInterface.LLMInterface.HandleOutcome` | src/llm_interface.py:128-152 | the reply is `Answer`'s for the outcome, and the reset time moves to 30 s after the error exactly when the reply is rate_limited |
| `LlmInterface.LLMInterface.GetStatus` | src/llm_interface.py:162-171 | the connection, the model, the key flag, and the matching status text |
| `LlmInterface.SourcesPerDict` | src/llm_interface.py:85-94 | one source per dict among the top three documents |
| `LlmInterface.ContextHoldsTexts` | src/llm_interface.py:83-94 | the context holds each top document's header and its first 500 characters |
| `LlmInterface.ChatHistoryEmpty` | src/llm_interface.py:97-102 | the history text is empty iff there is no history |
| `LlmInterface.PromptHasContext` | src/llm_interface.py:105-117 | the prompt contains the context, or the no-context placeholder |
| `LlmInterface.PromptHasHistory` | src/llm_interface.py:105-117 | the prompt contains the history, or the no-history placeholder |
| `LlmInterface.PromptHasQuery` | src/llm_interface.py:105-117 | the prompt contains the question |
| `LlmOllama.RStripCharSpec` | src/llm_ollama.py:20 | `rstrip('/')` removes exactly the trailing run of '/' |
| `LlmOllama.OllamaLLM.constructor` | src/llm_ollama.py:12-31 | the base URL is stripped of trailing '/'; connected iff /api/tags answers 200 |
| `LlmOllama.Fallback` | src/llm_ollama.py:96-111 | an offline reply with the first document's first 400 characters, or the unavailable message; raises iff the first document is not a dict |
| `LlmOllama.OllamaLLM.GenerateAnswer` | src/llm_ollama.py:33-94 | a reply from the model only when connected and the POST answers 200; otherwise the fallback |
| `LlmOllama.OllamaLLM.GetStatus` | src/llm_ollama.py:113-119 | the connection, the model, and the matching status text |
| `LlmOllama.ContextHoldsTexts` | src/llm_ollama.py:48-57 | the context contains the first 300 characters of each top document |
| `LlmOllama.SourcesPerDict` | src/llm_ollama.py:48-57 | one source per dict among the top three documents |
| `Auth.VerifyPassword` | src/auth.py:32-34 | a password verifies iff its hash equals the stored hash |
| `Auth.VerifyHashed` | src/auth.py:27-34 | under an injective digest, a password verifies against its own hash and no other password does |
| `Auth.Authenticate` | src/auth.py:37-43 | true iff the user is in the table with exactly that password |
| `Auth.AuthenticateAccounts` | src/auth.py:14-18 | the three demo accounts are the only logins |
| `Auth.GetUserRole` | src/auth.py:46-53 | admin and teacher map to themselves; everyone else is a student |
| `Auth.GetAvailablePages` | src/auth.py:56-59 | the role's page list |
| `Auth.PagesNonEmpty` | src/auth.py:20-24 | every user can reach the chat |
| `Auth.PagesNested` | src/auth.py:20-24 | student pages ⊆ teacher pages ⊆ admin pages |
| `Auth.PagePermissions` | src/auth.py:20-24 | upload iff admin or teacher; the LLM test page iff admin |
| `Auth.RequireRole` | src/auth.py:143-153 | the wrapped function runs iff a role is set and allowed, and then its result is returned |
| `StatsManager.Fresh` | src/stats_manager.py:16-25 | new statistics are all zero, with no queries and the session starting now |
| `StatsManager.Initialized` | src/stats_manager.py:13-26 | existing statistics are kept; absent ones are created fresh |
| `StatsManager.InitializedIdempotent` | src/stats_manager.py:13-26 | initializing twice equals initializing once |
| `StatsManager.DurationParts` | src/stats_manager.py:67-78 | hours < 24 and minutes < 60 are the whole hours and minutes of `timedelta.seconds` |
| `StatsManager.DurationText` | src/stats_manager.py:72-78 | the duration text ends in "m" |
| `StatsManager.DurationTextSpec` | src/stats_manager.py:72-78 | the text is "Hh Mm" or "Mm", with the hours shown iff at least an hour passed; the minutes read back |
| `StatsManager.StatsManager.InitializeStats` | src/stats_manager.py:13-26 | the session record is the initialized one |
| `StatsManager.StatsManager.IncrementQuestion` | src/stats_manager.py:29-34 | both question counters go up by one and the time is recorded; nothing else changes |
| `StatsManager.StatsManager.AddQuery` | src/stats_manager.py:37-45 | appends the query, the answer cut to 100 characters, the time and the response time; nothing else changes |
| `StatsManager.StatsManager.UpdateDocuments` | src/stats_manager.py:48-52 | sets the document and chunk counts; nothing else changes |
| `StatsManager.StatsManager.IncrementUploads` | src/stats_manager.py:55-58 | the upload count goes up by one; nothing else changes |
| `StatsManager.StatsManager.GetStats` | src/stats_manager.py:61-64 | returns the initialized record |
| `StatsManager.StatsManager.GetSessionDuration` | src/stats_manager.py:67-78 | the duration text of the time since the session start |
| `StatsManager.StatsManager.ResetStats` | src/stats_manager.py:81-93 | fresh statistics starting now |
| `Chat.FirstClose` | ui/pages/chat.py:27-31 | the first '>' at or after a position, or none |
| `Chat.StripHtmlTags` | ui/pages/chat.py:27-31 | non-strings are returned unchanged; strings have their tags removed |
| `Chat.StripTagsNoTag` | ui/pages/chat.py:27-31 | no `<...>` tag is left after stripping |
| `Chat.StripTagsNoTagUnchanged` | ui/pages/chat.py:27-31 | text without a tag is unchanged |
| `Chat.StripTagsIdempotent` | ui/pages/chat.py:27-31 | stripping twice equals stripping once |
| `Chat.ValidSources` | ui/pages/chat.py:66-82 | the seen-set loop returns exactly the specification's listing |
| `Chat.ListedEntries` | ui/pages/chat.py:73-82 | each listed entry is built from a dict source with truthy content |
| `Chat.ListedAtIncreasing` | ui/pages/chat.py:71-82 | listed sources keep their order |
| `Chat.ListedDistinct` | ui/pages/chat.py:74-76 | no two listed sources share a name |
| `Chat.ListedCovers` | ui/pages/chat.py:71-82 | every eligible source's name is listed |
| `Chat.GroqSourcesNeverListed` | ui/pages/chat.py:72 | the Groq client's sources have no 'content' key, so none of them is listed under an answer |
| `Chat.SearchFilters` | ui/pages/chat.py:229-233 | the filter holds subject and year exactly when they are not "All", and is absent when both are "All" |
| `Chat.Turn` | ui/pages/chat.py:198-271 | a turn adds no messages or two, and at most one history entry, which comes with two messages |
| `Chat.BlankAddsNothing` | ui/pages/chat.py:198-202 | blank input adds nothing |
| `Chat.GreetingSkipsSearch` | ui/pages/chat.py:214-226 | a greeting adds the user message and the canned reply, with no history entry, and does not depend on the search or the LLM |
| `Chat.QuestionAddsExchange` | ui/pages/chat.py:229-271 | a question adds the user message, the answer generated from the filtered search, and one history entry pairing them |
| `Chat.ChatSession.constructor` | ui/pages/chat.py:106-110 | a new session has no messages and no history |
| `Chat.ChatSession.ChatPage` | ui/pages/chat.py:106-271 | nothing changes when the system is not ready; otherwise the welcome message on an empty chat, then the turn's messages and history appended |
| `Chat.ChatSession.HandleInput` | ui/pages/chat.py:196-271 | the messages and the history grow by exactly the turn's messages and entries for the submitted input |
| `Chat.ChatSession.Clear` | ui/pages/chat.py:296-299 | clearing empties the messages and the history |

## Left out

- `\d`, `\w` and `\b` are modelled over ASCII, plus the few characters Python folds together case-insensitively; Python's Unicode classes for these are wider. `\s` is modelled by `Strings.IsSpace`, the full set of characters `str.isspace` accepts.
- `str.lower()` is modelled for ASCII only. This decides the "quota" test and greeting membership exactly for ASCII text.
- pdfplumber and PyPDF2 are left out. Each file is given as the per-page texts each reader returned, together with whether the reader raised.
- langchain's recursive splitter is left out. It is a function from text to segments that may raise.
- The md5 digest of `content + str(metadata)` is a function parameter. Dict key order, which changes `str()`, is not modelled.
- The embedding model, vector similarity, scores and the 0.3 score threshold are left out. The server's ranking is an input, and scores are carried through as opaque reals.
- The Chroma fallback branches are left out. chromadb is never imported, so `use_qdrant` is always true.
- The first `delete_document_by_metadata` (src/vector_store.py:309-331) is left out. The second definition of that name replaces it.
- Qdrant's `scroll` is modelled as returning points in ascending id order. Its `upsert` writes a batch's points in order.
- `VectorStore.VectorStore.Search`: top_k is a natural number. Negative limits are rejected by the server and are not modelled.
- The ordering of mixed metadata values when sorting: values of different kinds are given a fixed kind order. Python would raise a `TypeError` instead.
- Clocks and sleeps are parameters. This includes the `time.sleep(1)` between Groq retries and the Gemini rate-limit pause. Nothing waits.
- The network and the LLM SDKs are left out. Each call is a function parameter returning an outcome.
- `LlmGroq.GroqLLM.GenerateAnswer`: the answer content is taken as a string. A `None` content from the SDK is not modelled.
- History entries are assumed to be dicts.
- The Gemini model-construction failure is left out. An empty API key is the only construction error modelled.
- Streamlit rendering is left out: HTML markup, CSS, columns, expanders and spinners.
- `check_authentication`, `get_current_user` and `get_current_role` are left out. They only read session state.
- `StatsManager.initialize_stats` inside `chat_page` is not modelled.
- `init_system` is modelled as the `ready` flag of `Chat.ChatSession.ChatPage`.
- `DocumentProcessor.DocumentRecordsOrdered` assumes the pages come in increasing page order. `ExtractedPagesIncreasing` gives that unless pdfplumber raised after keeping some pages. In that case PyPDF2's pages follow, numbered from 1 again (`DocumentProcessor.PartialPlumberRepeatsPage`), and records are ordered only by position in the page list (`DocumentProcessor.DocumentRecordsPrefix`).
- `avg_response_time` is modelled as `StatsManager.AppStats.avgResponseTime`. The source never updates it, so the model keeps it at 0.0 and states nothing further about it.

## Findings

| source | as written | input that shows it | evidently intended | confidence | as-written member | corrected member |
|---|---|---|---|---|---|---|
| src/llm_interface.py:41 | `_verify_connection` returns `test_response is not None and test_response.text`, so the response text becomes the connection status | the ping answers with the text "Hi": `get_status()["connected"]` is "Hi", not True | the connection status is the boolean True | not executed | `LlmInterface.ConnectionAsWritten` (shown by `LlmInterface.ConnectedIsText`) | `LlmInterface.Connection` |
