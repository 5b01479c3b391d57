# Documentation assistant with human review — a Dafny model

The system answers questions about a documentation set. It is a FastAPI backend
around a LangGraph conversation graph. A question first goes through
`retrieve_context`, which asks a dual retriever for passages. Then
`assistant_draft` asks the language model for a draft, and the graph suspends
before `human_feedback`. A reviewer either approves the draft or sends feedback.
On approval, `human_feedback` stores the draft as a validated answer and
`assistant_finalize` polishes it. On feedback, the graph redrafts and suspends
again.

The retrieval side has four parts:

- **Document processor.** It splits markdown, PDF and plain text into chunks.
  It keeps fenced code blocks whole and packs parts up to a token budget, or it
  slides a token window over the text.
- **RAG pipeline.** It embeds chunks through an embedding cache and stores them
  in a vector store, in batches of 100.
- **Dual retriever.** It serves a question in three tiers: a query cache with a
  time-to-live; human-validated answers above a confidence threshold; and a
  de-duplicated, ranked, diversity-filtered merge of validated answers and
  document chunks.
- **Validation analytics.** An in-memory log of review decisions, with summary
  statistics.

## Modules

- `graph.dfy` — module `ReviewGraph` (`backend/app/graph.py`).
  - The state record and the four nodes, as functions on the state.
  - The edges, the router and the interrupt before `human_feedback`.
  - A run as LangGraph performs it: `Exec` runs one node; `Run` follows the
    edges until the interrupt, `END` or an exception; `update_state` merges
    fields; a resumed run starts at the pending node.
  - Whole review sessions, as a sequence of decisions.
  - The language model and the retriever are parameters of type `World`, and
    either may fail.
- `studio.dfy` — module `StudioGraph` (`backend/studio/human-in-the-loop.py`),
  the earlier graph without retrieval. Module `VariantContrast` compares the
  two feedback branches.
- `api.dfy` — module `Api` (`backend/app/api.py`). Class `Server` holds the
  thread checkpoints and the `run_configs` registry. It models:
  - the blocking start and resume endpoints;
  - the two registration endpoints;
  - the server-sent event stream: start or resume event, tokens, then status
    or error; a client disconnect is a parameter.
- `models.dfy` — module `Models` (`backend/app/models.py`): the request and
  response types, and the validation of their literal-typed fields.
- `document_processor.dfy` — module `DocumentProcessor`
  (`backend/app/rag/document_processor.py`):
  - section splitting, fenced and indented code-block detection;
  - code-aware packing, sliding-window chunking, line classification;
  - chunk ids, and the three `process_*` entry points.
- `dual_retrieval.dfy` — module `DualRetrieval`
  (`backend/app/rag/dual_retrieval.py`). Class `DualRetrievalSystem` owns the
  query cache and the embedding cache.
- `rag_pipeline.dfy` — module `RagPipeline` (`backend/app/rag/rag_pipeline.py`).
  Class `Pipeline` has two caches and fills the batch embeddings into an array
  by index.
- `vector_store.dfy` — module `VectorStore` (`backend/app/rag/vector_store.py`).
  Class `Store` holds the lazily opened collection handles and the batching
  loop.
- `validation_analytics.dfy` — module `ValidationAnalytics`
  (`backend/app/validation_analytics.py`). Class `Analytics` holds the
  append-only event log.
- Helper modules, written for the model:
  - `wrappers.dfy` (`Option`, `Result`);
  - `values.dfy` (JSON-like metadata values);
  - `text.dfy` (split, join, strip, lower-casing, previews);
  - `dicts.dfy` (Python dicts as insertion-ordered entry lists);
  - `sorting.dfy` (Python's stable sort by a real key);
  - `messages.dfy` (chat messages and prompts).

Where the system's specification and the code differ, the model follows the
code:

- **Messages.** The specification says `messages` holds the user question,
  each draft and each feedback comment. In `backend/app/graph.py` only the
  model's replies are appended, and the feedback comment is not
  (`ReviewGraph.FeedbackRoundKeepsOnlyReplies`). The studio variant does append
  the comment (`VariantContrast.OnlyStudioRecordsComment`).
- **Resuming.** The specification rejects a resume that is not awaiting a
  decision, and rejects an empty feedback comment. The code checks neither.
  - `update_state` applies to any thread that has a checkpoint.
  - An empty comment makes `assistant_draft` take the first-draft branch.
  - Resuming a finished thread runs nothing.
- **Streaming.** The specification describes a `sources` event and a replay of
  the last status for a late stream. The code has neither. A stream for a
  thread with no registration gets an error object
  (`Api.Server.StreamGraph`).
- **Storing the validated answer.** The specification stores it while
  finalizing. The code stores it in `human_feedback`, before
  `assistant_finalize` runs (`ReviewGraph.HumanFeedbackStore`).

## Model

| member | source | states |
|---|---|---|
| ReviewGraph.SourceOf | backend/app/graph.py:73-84 | the `i`-th source is numbered `i` and records the result's source and confidence. Its content is the result's content cut to 300 characters plus "..." when longer. Its metadata has exactly the keys file, section, validated and validation_info, and `validated` is true iff the result came from validated answers. |
| ReviewGraph.SourcesOf | backend/app/graph.py:64-84 | one source per result, in result order, numbered from 1 |
| ReviewGraph.BuildContext | backend/app/graph.py:60-86 | the accumulating loop yields exactly the context parts, the source list and the summed confidence of the results |
| ReviewGraph.RetrieveContextNode | backend/app/graph.py:34-112 | retrieve_context writes only rag_context, rag_sources and retrieval_confidence, and always writes all three. The source list is empty exactly when the node leaves the empty context (no results, or the retriever raised). |
| ReviewGraph.RetrieveContextSources | backend/app/graph.py:64-102 | with `n > 0` results, the state holds `n` sources numbered from 1 with 300-character previews and the validated flag, and the mean confidence |
| ReviewGraph.GuidanceFor | backend/app/graph.py:155-163 | a first draft gets no instruction iff there is no context. With context: "primarily" iff the confidence is at least 0.8, "reference" iff it is in [0.5, 0.8), and "cautious" iff it is below 0.5. |
| ReviewGraph.DraftMessages | backend/app/graph.py:117-180 | in the revision branch (status "feedback" and a non-empty comment) the prompt is the question, the earlier messages, then the revision system prompt with the context and the comment. Otherwise it is the first-draft system prompt, built from the context (empty when absent), the confidence (0 when absent) and their guidance tier, followed by the question. |
| ReviewGraph.AssistantDraftNode | backend/app/graph.py:115-202 | on a model reply, exactly that reply is appended to messages and becomes assistant_response, and the sources are passed on as response_sources. On failure, messages are unchanged and assistant_response is the fixed apology. Request, comment, status and context are untouched. |
| ReviewGraph.GatherSourceChunks | backend/app/graph.py:218-223 | the loop collects exactly the chunk ids listed in the sources' metadata, in order |
| ReviewGraph.BuiltSourcesHaveNoChunks | backend/app/graph.py:73-84 | sources built by retrieve_context carry no chunk ids, so human_feedback always stores an empty chunk list |
| ReviewGraph.HumanFeedbackStore | backend/app/graph.py:213-232 | a validated answer is stored iff the status is "approved" and assistant_response is non-empty. It carries the question, the draft, thread id "unknown" and the comment. |
| ReviewGraph.AssistantFinalizeNode | backend/app/graph.py:243-281 | on a model reply, exactly one message is appended and assistant_response is replaced; on failure the state is returned unchanged |
| ReviewGraph.FeedbackRouter | backend/app/graph.py:284-289 | routes to "assistant_finalize" iff the status is "approved", otherwise to "assistant_draft"; reading a missing status fails |
| ReviewGraph.Edges | backend/app/graph.py:301-312 | START leads only to retrieve_context and nothing returns to it. END is reached only from assistant_finalize, which is reached only from human_feedback. human_feedback is reached only from assistant_draft. |
| ReviewGraph.NextEndpoint | backend/app/graph.py:301-312 | every transition follows an edge; the only failing transition is leaving human_feedback with no status |
| ReviewGraph.RetrievalOnlyFirst | backend/app/graph.py:301-312 | on any path from START, retrieve_context occurs only at position 1: retrieval runs once per thread |
| ReviewGraph.EndOnlyAfterFinalize | backend/app/graph.py:304-312 | on any path, END is preceded by assistant_finalize, and that by human_feedback |
| ReviewGraph.Exec | backend/app/graph.py:295-298 | a step runs the named node. Only assistant_finalize raises, when there is no assistant_response. A step changes messages iff it obtained a model reply. retrieve_context and human_feedback stream no tokens. |
| ReviewGraph.Run | backend/app/graph.py:315 | a run's first step is the node it starts from |
| ReviewGraph.RunAppendsReplies | backend/app/graph.py:183-194 | a run only appends to messages: the final messages are the initial ones followed by one reply per successful model call, in order |
| ReviewGraph.ExecAppendsReply | backend/app/graph.py:185 | one node appends its model reply, if any, and nothing else |
| ReviewGraph.OnlyModelNodesStream | backend/app/graph.py:295-298 | only the nodes that call the model produce tokens |
| ReviewGraph.StartInput | backend/app/api.py:32 | the start input writes human_request over the thread's values, or over a fresh state |
| ReviewGraph.UpdateState | backend/app/api.py:39-43 | update_state sets status to the action and replaces the comment only when one is given. It keeps the pending node and the messages, and fails on a thread with no checkpoint. |
| ReviewGraph.DraftRunSuspends | backend/app/graph.py:303-315 | a run from assistant_draft runs that one node and stops before human_feedback |
| ReviewGraph.RetrieveRunContinues | backend/app/graph.py:301-302 | a run from retrieve_context retrieves, then continues exactly as a run from assistant_draft |
| ReviewGraph.StartSuspendsForReview | backend/app/graph.py:301-315 | a new thread runs retrieve_context and assistant_draft and suspends before human_feedback with a response. It holds one message iff the model answered, otherwise none. |
| ReviewGraph.ResumeApprovedFinishes | backend/app/graph.py:304-312 | resuming an approved draft runs human_feedback and assistant_finalize and ends |
| ReviewGraph.ResumeFeedbackRedrafts | backend/app/graph.py:304-312 | resuming with feedback runs human_feedback and assistant_draft, suspends again with a response, and keeps the retrieved context |
| ReviewGraph.ResumeWithoutStatusRaises | backend/app/graph.py:286 | resuming with no status raises in the router: no step is committed and the checkpoint stays as it was |
| ReviewGraph.ReviewRoundsExtend | backend/app/graph.py:303-312 | a review round (human_feedback, then a draft or the finalization) extends a sequence of rounds |
| ReviewGraph.NoRetrievalInRounds | backend/app/graph.py:301-312 | review rounds never contain retrieve_context |
| ReviewGraph.RetrievalOnce | backend/app/graph.py:301-312 | in a valid trace retrieve_context appears exactly once, first |
| ReviewGraph.AdvanceKeepsShape | backend/app/graph.py:304-315 | one review decision keeps the session's shape. The trace stays valid, and the thread either awaits review after a draft with a response or has finished after assistant_finalize. |
| ReviewGraph.ExtendTrace | backend/app/graph.py:303-312 | a review round appended after a draft keeps a trace valid |
| ReviewGraph.SessionFollowsMachine | backend/app/graph.py:301-315 | every sequence of decisions on a new thread yields a valid trace: retrieval, a draft, then rounds of review, ending suspended after a draft or finished after assistant_finalize |
| ReviewGraph.StartValues | backend/app/graph.py:34-202 | a new thread's first run ends with exactly what the first draft wrote over the retrieved state |
| ReviewGraph.FeedbackValues | backend/app/graph.py:132-151 | a feedback round ends with exactly what the new draft wrote |
| ReviewGraph.FeedbackRoundKeepsOnlyReplies | backend/app/graph.py:148-149 | after a first draft and one feedback round, messages hold exactly two model replies: neither the question nor the comment is recorded |
| StudioGraph.StatusOrApproved | backend/studio/human-in-the-loop.py:22 | a missing status counts as "approved" |
| StudioGraph.CommentTurn | backend/studio/human-in-the-loop.py:34-35 | the human comment is added to messages exactly in the revision branch |
| StudioGraph.AssistantDraftNode | backend/studio/human-in-the-loop.py:20-55 | fails iff the model fails. The revision branch appends the comment and then the reply; the first-draft branch appends only the reply. Earlier messages are kept and assistant_response is the reply. |
| StudioGraph.AssistantFinalizeNode | backend/studio/human-in-the-loop.py:62-78 | fails iff the model fails; otherwise appends exactly the reply and makes it assistant_response |
| StudioGraph.FeedbackRouter | backend/studio/human-in-the-loop.py:82-86 | routes to assistant_finalize iff the status is "approved", otherwise to assistant_draft; a missing status raises |
| StudioGraph.Edges | backend/studio/human-in-the-loop.py:96-99 | START and human_feedback lead to assistant_draft, END is reached only from assistant_finalize, and there is no retrieval node |
| StudioGraph.NextEndpoint | backend/studio/human-in-the-loop.py:96-101 | transitions follow the edges and fail only when human_feedback has no status |
| StudioGraph.Exec | backend/studio/human-in-the-loop.py:58-59 | human_feedback changes nothing |
| StudioGraph.StartSuspendsForReview | backend/studio/human-in-the-loop.py:96-101 | a new run drafts once and suspends before human_feedback with exactly the reply in messages, or fails having run nothing |
| StudioGraph.ResumeWithoutStatusRaises | backend/studio/human-in-the-loop.py:83 | resuming with no status raises and commits nothing |
| StudioGraph.ResumeFeedbackAppendsComment | backend/studio/human-in-the-loop.py:24-49 | a feedback resume with a comment appends the comment, then the new reply, and suspends again |
| StudioGraph.ResumeApprovedFinishes | backend/studio/human-in-the-loop.py:62-78 | an approved resume appends exactly the final reply and ends |
| VariantContrast.OnlyStudioRecordsComment | backend/studio/human-in-the-loop.py:34-35 | from the same messages and comment, the studio draft records the comment and the application draft (backend/app/graph.py:148-149) does not: the studio's messages are one longer and the application appends only model replies |
| Models.ParseReviewAction | backend/app/models.py:11 | a review action is exactly "approved" or "feedback" |
| Models.ReviewActionRoundTrip | backend/app/models.py:11 | parsing an action's name gives the action back |
| Models.ParseRunStatus | backend/app/models.py:17 | a run status is exactly "finished", "user_feedback" or "pending" |
| Models.RequiredString | backend/app/models.py:6 | a required string field is accepted iff present and a string |
| Models.OptionalString | backend/app/models.py:12 | an optional string field that is absent or null reads as None; a non-string is rejected |
| Models.ValidateStartRequest | backend/app/models.py:5-6 | a start request is valid iff human_request is a string |
| Models.ValidateResumeRequest | backend/app/models.py:9-12 | a resume request is valid iff thread_id is a string, review_action names an action, and human_comment is absent, null or a string. The accepted request carries the body's thread id and action. Its comment is None iff absent or null, and is otherwise the body's string. |
| Api.RunStatusOf | backend/app/api.py:18-21 | "user_feedback" iff the next node is human_feedback, otherwise "finished" |
| Api.RunResponse | backend/app/api.py:13-26 | the response carries the thread id and the final assistant_response, with status "user_feedback" iff the run suspended before human_feedback, never "pending". It fails iff the run raised or wrote no response. |
| Api.StepItems | backend/app/api.py:122-125 | only tokens from assistant_draft and assistant_finalize are forwarded |
| Api.FilterDropsNothing | backend/app/api.py:122 | because only the model nodes stream, the node filter drops no token of a run |
| Api.CompletedBefore | backend/app/api.py:117-120 | the token at which the client disconnects falls within a definite step |
| Api.StreamedRun | backend/app/api.py:115-150 | without a disconnect, the stream forwards all tokens and commits the whole run. A disconnect stops forwarding at that token without an error. The steps completed before it stay committed: the values are those after the last completed step, or the starting values when none completed. The step that yielded the token becomes the pending node. |
| Api.Events | backend/app/api.py:108-150 | the event sequence is the start or resume event, then one token event per forwarded token, then exactly one last event: the status event, or the error event when the run raised. No status or error event comes earlier. |
| Api.TokenEvents | backend/app/api.py:123-125 | one token event per token, in order |
| Api.DisconnectStillReportsStatus | backend/app/api.py:118-136 | after a disconnect the stream still ends with a status event |
| Api.ResumeStreamStatus | backend/app/api.py:97-136 | a streamed resume of a suspended thread ends with status "finished" for an approval and "user_feedback" for feedback |
| Api.Server.Existing | backend/app/api.py:15 | a thread has a checkpoint iff it has been run |
| Api.Server.StartGraph | backend/app/api.py:28-34 | a start runs the graph from a fresh input, commits the run to the thread and answers with RunResponse; the registry is untouched |
| Api.Server.ResumeGraph | backend/app/api.py:36-45 | a resume of an unknown thread fails and changes nothing. Otherwise it merges status and comment, continues the run, commits it and answers with RunResponse. |
| Api.Server.CreateGraphStreaming | backend/app/api.py:52-65 | registers a start entry for the thread, touches no checkpoint, and answers "pending" with no response |
| Api.Server.ResumeGraphStreaming | backend/app/api.py:67-81 | overwrites the thread's registry entry with a resume entry, whatever the thread's stage, and answers "pending" with no response |
| Api.Server.StreamGraph | backend/app/api.py:83-152 | an unregistered thread gets the not-found object, and nothing changes. A registered thread gets the event stream of its run; the streamed part is committed and the registry entry removed, after the status event or the error event alike. |
| DocumentProcessor.LeadingHashes | backend/app/rag/document_processor.py:95 | the number of leading '#' characters |
| DocumentProcessor.ParseHeader | backend/app/rag/document_processor.py:95-104 | a line is a header iff it starts with 1 to 6 '#' followed by a whitespace character (Python's full `\s` set). The level is the count of '#' and the title is the rest without leading whitespace. |
| DocumentProcessor.ExtractMarkdownSections | backend/app/rag/document_processor.py:86-129 | the section loop computes MarkdownSections |
| DocumentProcessor.MarkdownSectionsSpec | backend/app/rag/document_processor.py:89-129 | never empty. The contents concatenate to the input plus "\n". Every section is well formed. The first section is "Introduction" when the first line is not a header, and a header section otherwise; the fallback is unreachable. |
| DocumentProcessor.HeaderLineKeeps | backend/app/rag/document_processor.py:97-110 | a header line saves the open section and opens a new one starting with that line |
| DocumentProcessor.ContinueLineKeeps | backend/app/rag/document_processor.py:112-113 | another line extends the open section |
| DocumentProcessor.IntroOpensKeeps | backend/app/rag/document_processor.py:116-121 | the first line before any header opens a level-1 "Introduction" section |
| DocumentProcessor.IntroGrowsKeeps | backend/app/rag/document_processor.py:122-123 | later lines before any header extend the introduction |
| DocumentProcessor.ScanLinesInvariant | backend/app/rag/document_processor.py:93-123 | the scan invariant holds after every line |
| DocumentProcessor.FindFrom | backend/app/rag/document_processor.py:152-153 | the first occurrence of a pattern at or after a position, or none |
| DocumentProcessor.FenceAt | backend/app/rag/document_processor.py:152-163 | a fenced match runs from its start to its end, begins with three backticks and ends with a line break and three backticks |
| DocumentProcessor.FencedBlocks | backend/app/rag/document_processor.py:152-163 | the successive matches are ordered and do not overlap |
| DocumentProcessor.ExtractIndentedBlocks | backend/app/rag/document_processor.py:165-191 | the loop over lines computes the indented-block scan |
| DocumentProcessor.IndentedBlocksSpec | backend/app/rag/document_processor.py:166-189 | every block is a maximal run of lines indented by four spaces, with the indentation removed. Blocks are in order, every run closed by a plain line is reported, and a run still open at the last line is not. |
| DocumentProcessor.CountTokens | backend/app/rag/document_processor.py:359-364 | the tokenizer's count, or the length divided by 4 when encoding fails |
| DocumentProcessor.PartsOfBlock | backend/app/rag/document_processor.py:206-219 | each fenced block becomes one whole part, after the text before it |
| DocumentProcessor.PartsFrom | backend/app/rag/document_processor.py:203-229 | no part is empty |
| DocumentProcessor.PartsCover | backend/app/rag/document_processor.py:200-229 | the parts concatenate back to the content: nothing is lost or duplicated |
| DocumentProcessor.BuildParts | backend/app/rag/document_processor.py:200-229 | the parts loop computes PartsFrom |
| DocumentProcessor.PackKeeps | backend/app/rag/document_processor.py:236-257 | packing closes a group only when the next part would exceed chunk_size and the group is non-empty, so an oversized part is a group of its own |
| DocumentProcessor.PackPartition | backend/app/rag/document_processor.py:236-257 | the closed groups and the open group are the parts, each once, in order: fenced blocks are never split |
| DocumentProcessor.PackingSpec | backend/app/rag/document_processor.py:200-257 | the packed groups concatenate back to the section content, and the packing invariant holds |
| DocumentProcessor.PackedTextsShape | backend/app/rag/document_processor.py:240-268 | one chunk text per closed group, stripped, plus the open group's text only when it is not blank |
| DocumentProcessor.Classify | backend/app/rag/document_processor.py:352-357 | "code" iff code lines exceed twice the text lines; "text" iff not, and text lines exceed twice the code lines; "mixed" otherwise |
| DocumentProcessor.LinesCounted | backend/app/rag/document_processor.py:335-350 | every non-blank line is counted once, as code or as text |
| DocumentProcessor.UniformLinesClassify | backend/app/rag/document_processor.py:331-357 | a chunk whose non-blank lines all look like code is "code"; one with no code-like line is "text" |
| DocumentProcessor.ClassifyChunkType | backend/app/rag/document_processor.py:328-357 | the counting loop computes ChunkTypeOf |
| DocumentProcessor.ChunkId | backend/app/rag/document_processor.py:366-369 | an id is "chunk_" followed by 12 hexadecimal digits |
| DocumentProcessor.SameIdForSamePrefix | backend/app/rag/document_processor.py:368 | two chunks of one file at the same index whose contents share their first 100 characters get the same id |
| DocumentProcessor.CreateChunk | backend/app/rag/document_processor.py:298-326 | builds the chunk and its metadata |
| DocumentProcessor.Chunks | backend/app/rag/document_processor.py:232-294 | one chunk per text |
| DocumentProcessor.ChunksNumbered | backend/app/rag/document_processor.py:298-326 | chunk `k` holds text `k` and is numbered `k` from 0. Its id is built from its text, and it records its character count, section title and level, file, document type and classification. |
| DocumentProcessor.ChunkWithCodeBlocks | backend/app/rag/document_processor.py:193-270 | builds the parts, packs them and numbers the chunks consecutively from 0 |
| DocumentProcessor.PackParts | backend/app/rag/document_processor.py:232-268 | the packing loop yields one chunk per packed text, in order |
| DocumentProcessor.Window | backend/app/rag/document_processor.py:283 | a window holds at most chunk_size tokens |
| DocumentProcessor.WindowsAt | backend/app/rag/document_processor.py:282-283 | window `k` is the slice of at most chunk_size tokens starting at `k` times the step; the windows run until the tokens are used up |
| DocumentProcessor.WindowsCover | backend/app/rag/document_processor.py:282-283 | when the step does not exceed chunk_size, every token lies in some window at its position |
| DocumentProcessor.ChunkWindows | backend/app/rag/document_processor.py:282-294 | the window loop yields one chunk per decoded window, numbered from 0 |
| DocumentProcessor.ChunkPlainText | backend/app/rag/document_processor.py:272-296 | computes PlainChunks: no chunks for no tokens, and an error when the step is zero or encoding fails |
| DocumentProcessor.ChunkSection | backend/app/rag/document_processor.py:131-144 | packs around blocks when a fenced or indented block is found, otherwise slides windows |
| DocumentProcessor.IndentedOnlySectionIsOneChunk | backend/app/rag/document_processor.py:141-204 | indented blocks have no start, so a section whose only blocks are indented becomes one whole chunk, whatever chunk_size is |
| DocumentProcessor.NoBlocksOneText | backend/app/rag/document_processor.py:224-268 | with no fenced block, the packed text is the whole stripped content, or nothing when blank |
| DocumentProcessor.Truncate | backend/app/rag/document_processor.py:45 | keeps at most `n` items, the first ones |
| DocumentProcessor.ProcessMarkdown | backend/app/rag/document_processor.py:30-45 | chunks every section in order and returns at most max_chunks chunks |
| DocumentProcessor.ChunkSections | backend/app/rag/document_processor.py:41-43 | the section loop extends the list section by section and stops at the first failure |
| DocumentProcessor.SectionsFailureStays | backend/app/rag/document_processor.py:41-43 | once a section fails, the document fails with that section's error |
| DocumentProcessor.ProcessText | backend/app/rag/document_processor.py:74-84 | the whole text is one section titled with the file name, cut to max_chunks chunks |
| DocumentProcessor.ProcessPdf | backend/app/rag/document_processor.py:47-72 | the page texts, each under a page banner, form one section. At most max_chunks chunks result, and none when reading fails. |
| DocumentProcessor.SectionChunksNumbered | backend/app/rag/document_processor.py:232-294 | within a section, chunk indexes run from 0 and every chunk records the section, the file and its own id |
| DocumentProcessor.TextChunksNumbered | backend/app/rag/document_processor.py:74-84 | plain-text chunks are at most max_chunks, numbered from 0, under the file name |
| DualRetrieval.ZeroVector | backend/app/rag/dual_retrieval.py:444-447 | the fallback embedding is 1536 zeros |
| DualRetrieval.CheckCache | backend/app/rag/dual_retrieval.py:105-125 | keyed on the lower-cased, stripped query (lower-casing limited to ASCII and Latin-1, see Left out). A hit iff the entry is younger than the time-to-live; it is marked as a hit with its age and keeps its place. A stale entry is deleted, and other entries are untouched. |
| DualRetrieval.OldestKeysSpec | backend/app/rag/dual_retrieval.py:457-458 | the keys picked for eviction are distinct keys of the cache |
| DualRetrieval.OldestKeysAreOldest | backend/app/rag/dual_retrieval.py:457-459 | every entry that survives eviction is at least as recent as every evicted one |
| DualRetrieval.EvictOldestSpec | backend/app/rag/dual_retrieval.py:455-459 | eviction removes exactly min(20, size) entries, the oldest, and adds nothing |
| DualRetrieval.StoreQueryBounded | backend/app/rag/dual_retrieval.py:449-460 | after storing, the query cache has distinct keys and at most max_cache_size entries |
| DualRetrieval.CacheEmbedding | backend/app/rag/dual_retrieval.py:431-440 | a new embedding is appended, and when the cache overflows its 100 earliest-inserted entries are dropped |
| DualRetrieval.CacheEmbeddingKeeps | backend/app/rag/dual_retrieval.py:427-440 | the embedding cache keeps distinct keys, stays within its limit, and holds only what the model returned for each text |
| DualRetrieval.Tagged | backend/app/rag/dual_retrieval.py:269 | every validated result is boosted |
| DualRetrieval.Unique | backend/app/rag/dual_retrieval.py:266-278 | no kept result has a 200-character prefix seen before |
| DualRetrieval.UniqueDistinct | backend/app/rag/dual_retrieval.py:266-278 | the kept results have distinct prefixes, all from the inputs |
| DualRetrieval.UniqueFromInputs | backend/app/rag/dual_retrieval.py:266-271 | every kept result is an input, boosted when validated |
| DualRetrieval.UniqueCovers | backend/app/rag/dual_retrieval.py:266-278 | every input prefix was seen before or is kept |
| DualRetrieval.AppendUnique | backend/app/rag/dual_retrieval.py:266-278 | one de-duplicating loop appends the new results and records their prefixes |
| DualRetrieval.MergeUnique | backend/app/rag/dual_retrieval.py:262-278 | the two loops compute the merge: validated first, then RAG results |
| DualRetrieval.MergedDistinct | backend/app/rag/dual_retrieval.py:262-278 | no two merged results share a prefix |
| DualRetrieval.MergedOrigin | backend/app/rag/dual_retrieval.py:262-278 | every merged result is a boosted validated result or a RAG result, and a prefix found among validated results is represented by the validated one |
| DualRetrieval.MergedCovers | backend/app/rag/dual_retrieval.py:262-278 | every prefix of either input is represented |
| DualRetrieval.SortedMergedSpec | backend/app/rag/dual_retrieval.py:281 | after the sort: non-increasing confidence, distinct prefixes, nothing new |
| DualRetrieval.SelectSpec | backend/app/rag/dual_retrieval.py:302-319 | the diversity loop extends the selection with picks in input order, mutually dissimilar, at most top_k, the first result first |
| DualRetrieval.KeepStep | backend/app/rag/dual_retrieval.py:318-319 | keeping a candidate dissimilar to all kept ones extends the selection |
| DualRetrieval.DiverseSpec | backend/app/rag/dual_retrieval.py:291-322 | the filter returns an order-preserving subsequence of mutually dissimilar results, at most top_k (at least 1), empty iff the input is empty, and always keeps the first result |
| DualRetrieval.RankedSpec | backend/app/rag/dual_retrieval.py:255-289 | merge and rerank returns at most top_k results, in non-increasing confidence, with distinct prefixes, all merged inputs, validated taking precedence |
| DualRetrieval.SourceFilesSpec | backend/app/rag/dual_retrieval.py:355-360 | the source files are distinct, in first-seen order, and are exactly the named files of the chunks |
| DualRetrieval.CollectSourceFiles | backend/app/rag/dual_retrieval.py:355-360 | the metadata loop computes SourceFiles |
| DualRetrieval.QueryWords | backend/app/rag/dual_retrieval.py:372 | the munged query has at most 30 characters and no space, '?' or '!' |
| DualRetrieval.PrimarySource | backend/app/rag/dual_retrieval.py:345-373 | the first source file, or "Validated_" and the munged query when there is none |
| DualRetrieval.Combine | backend/app/rag/dual_retrieval.py:338-341 | the stored embedding is 0.3 times the query's plus 0.7 times the answer's, position by position, as long as the shorter one |
| DualRetrieval.ValidatedMetadataSpec | backend/app/rag/dual_retrieval.py:378-401 | the stored metadata records the primary source under source_file and file, all source files, the id, the answer, the query and the feedback ("" when none) |
| DualRetrieval.DualRetrievalSystem.CheckQueryCache | backend/app/rag/dual_retrieval.py:105-125 | `_check_cache` on the system's cache, leaving the embedding cache alone |
| DualRetrieval.DualRetrievalSystem.UpdateCache | backend/app/rag/dual_retrieval.py:449-460 | `_update_cache` with its deletion loop stores the result and keeps the cache bounded |
| DualRetrieval.DualRetrievalSystem.GetEmbedding | backend/app/rag/dual_retrieval.py:423-447 | a cached text is served without calling the model. Otherwise the model is called once; its embedding is cached with FIFO eviction, and a failure gives the zero vector and caches nothing. |
| DualRetrieval.DualRetrievalSystem.EvictOldest | backend/app/rag/dual_retrieval.py:437-439 | deleting the first 100 keys drops the first 100 entries |
| DualRetrieval.DualRetrievalSystem.IsDiverse | backend/app/rag/dual_retrieval.py:307-316 | the inner loop answers whether the candidate is dissimilar to every kept result |
| DualRetrieval.DualRetrievalSystem.ApplyDiversityFilter | backend/app/rag/dual_retrieval.py:291-322 | the filter, embedding prefixes through the cache, computes Diverse |
| DualRetrieval.DualRetrievalSystem.MergeAndRerank | backend/app/rag/dual_retrieval.py:255-289 | computes Ranked |
| DualRetrieval.DualRetrievalSystem.Retrieve | backend/app/rag/dual_retrieval.py:52-103 | a cache hit (unless force_rag) returns exactly the cached result. Otherwise, a best validated answer at or above the threshold returns the validated results cut to top_k and caches the first. Otherwise the ranked merge is returned and its first result cached. force_rag skips the cache and the validated answers. |
| DualRetrieval.DualRetrievalSystem.AddValidatedAnswer | backend/app/rag/dual_retrieval.py:324-421 | the stored record has the hashed id, the answer, the metadata and the combined embedding; the query's cache entry is deleted unless storing raised |
| DualRetrieval.DualRetrievalSystem.InvalidateQuery | backend/app/rag/dual_retrieval.py:411-414 | the query's cache entry is removed, if any |
| RagPipeline.InferDocType | backend/app/rag/rag_pipeline.py:38-44 | ".md" gives markdown, otherwise ".pdf" gives pdf, otherwise text |
| RagPipeline.MetadataDict | backend/app/rag/rag_pipeline.py:63 | `to_dict` keeps every metadata field |
| RagPipeline.MetadataRoundTrip | backend/app/rag/rag_pipeline.py:63 | the chunk metadata can be read back from the stored dictionary |
| RagPipeline.Uncached | backend/app/rag/rag_pipeline.py:133-139 | the positions of the uncached texts, increasing |
| RagPipeline.BatchEmbeddingsComplete | backend/app/rag/rag_pipeline.py:129-150 | every position is filled. A cached text gets its cached vector; an uncached text at rank `r` among the uncached gets the `r`-th new embedding, and the uncached texts are sent in their original order. |
| RagPipeline.PutAllHasKeys | backend/app/rag/rag_pipeline.py:147-149 | after the puts every new text and every earlier key is cached |
| RagPipeline.TrimmedSpec | backend/app/rag/rag_pipeline.py:153-157 | over the limit, the first 100 entries are dropped and the rest kept in order |
| RagPipeline.BatchCacheSpec | backend/app/rag/rag_pipeline.py:129-157 | after the batch every text is cached (before trimming) with distinct keys |
| RagPipeline.Vectors | backend/app/rag/rag_pipeline.py:60-66 | the embeddings handed to the vector store, position by position |
| RagPipeline.ToRagResults | backend/app/rag/rag_pipeline.py:94-112 | one result per hit, in order |
| RagPipeline.RagResultsFollowHits | backend/app/rag/rag_pipeline.py:94-112 | each result carries its hit's id, document and metadata, with source "rag"; a smaller distance gives a greater confidence |
| RagPipeline.OldestIndex | backend/app/rag/rag_pipeline.py:119-120 | the first entry with the smallest timestamp |
| RagPipeline.CacheResultsBounded | backend/app/rag/rag_pipeline.py:115-121 | the query cache keeps distinct keys and at most 50 entries |
| RagPipeline.CacheResultsEvictsOldest | backend/app/rag/rag_pipeline.py:115-121 | on overflow exactly the oldest entry is removed; otherwise the new entry is simply stored |
| RagPipeline.CacheResultsKeepsNew | backend/app/rag/rag_pipeline.py:115-121 | the results just stored survive the eviction |
| RagPipeline.StoredRecords | backend/app/rag/rag_pipeline.py:58-66 | chunk `k` is stored with its id, content and metadata, and with the cached or newly made embedding of its text |
| RagPipeline.ConvertHits | backend/app/rag/rag_pipeline.py:94-112 | the conversion loop computes ToRagResults |
| RagPipeline.Pipeline.constructor | backend/app/rag/rag_pipeline.py:22-32 | both caches start empty |
| RagPipeline.Pipeline.GetEmbedding | backend/app/rag/rag_pipeline.py:161-171 | a cached vector is returned without a model call. On a miss the model is called once and its vector cached, with no eviction. When the model raises, the failure propagates and the cache is unchanged. |
| RagPipeline.Pipeline.GenerateEmbeddingsBatch | backend/app/rag/rag_pipeline.py:125-159 | the model is called once with the uncached texts when there are any. When it raises, the failure propagates and the cache is unchanged. Otherwise the result is BatchEmbeddings and the cache becomes BatchCache. |
| RagPipeline.Pipeline.LookUpCached | backend/app/rag/rag_pipeline.py:129-139 | the first loop fills cached positions and lists the uncached ones |
| RagPipeline.Pipeline.StoreFresh | backend/app/rag/rag_pipeline.py:147-150 | the zip loop caches each new embedding and places it at its index |
| RagPipeline.Pipeline.TrimEmbeddingCache | backend/app/rag/rag_pipeline.py:153-157 | over the limit, the first 100 keys are deleted |
| RagPipeline.Pipeline.AddDocument | backend/app/rag/rag_pipeline.py:34-69 | the type is inferred only when none is given. No chunks gives 0 and writes nothing. When embedding raises, the failure propagates with nothing cached and nothing stored. Otherwise every chunk is embedded through the cache and appended to the document collection, and the chunk count is returned. |
| RagPipeline.Pipeline.ProcessDocument | backend/app/rag/rag_pipeline.py:47-52 | dispatches on the document type |
| RagPipeline.Pipeline.StoreChunks | backend/app/rag/rag_pipeline.py:58-66 | stores iff embedding succeeds: then the chunks are appended, aligned with their embeddings; otherwise neither the cache nor the store changes |
| RagPipeline.Pipeline.Retrieve | backend/app/rag/rag_pipeline.py:71-123 | an entry younger than an hour is returned as is, changing nothing. Otherwise the query is embedded through the cache. When that raises, the failure propagates and both caches are unchanged; otherwise the nearest chunks become results, which are cached. |
| RagPipeline.Pipeline.CacheQueryResults | backend/app/rag/rag_pipeline.py:115-121 | the results are cached and the cache stays within 50 entries |
| RagPipeline.Pipeline.GetStats | backend/app/rag/rag_pipeline.py:177-185 | the two collection counts and the two cache sizes |
| RagPipeline.Pipeline.ClearCaches | backend/app/rag/rag_pipeline.py:187-190 | both caches are emptied; the store is untouched |
| VectorStore.Opened | backend/app/rag/vector_store.py:28-54 | an existing collection is reused; a missing one is created empty with cosine distance |
| VectorStore.Appended | backend/app/rag/vector_store.py:76-81 | `add` appends the records to the named collection only |
| VectorStore.Zip | backend/app/rag/vector_store.py:64-66 | the four parallel lists stay aligned by position |
| VectorStore.ChunkRecords | backend/app/rag/vector_store.py:64-66 | chunk `i` is stored with embedding `i` |
| VectorStore.AppendedTwice | backend/app/rag/vector_store.py:70-81 | two appends are one append of both |
| VectorStore.BatchesCover | backend/app/rag/vector_store.py:69-74 | the batches, put back together, are the whole list in order |
| VectorStore.BatchesBounded | backend/app/rag/vector_store.py:69-74 | every batch holds 1 to 100 items and batch `k` starts at 100·k |
| VectorStore.BatchesAligned | backend/app/rag/vector_store.py:64-81 | within each batch, ids, documents, metadata and embeddings stay aligned |
| VectorStore.Store.constructor | backend/app/rag/vector_store.py:10-26 | no collection handle is open yet |
| VectorStore.Store.DocumentChunks | backend/app/rag/vector_store.py:28-40 | the handle is opened once and then reused |
| VectorStore.Store.ValidatedAnswers | backend/app/rag/vector_store.py:42-54 | the handle is opened once and then reused |
| VectorStore.Store.AddDocumentChunks | backend/app/rag/vector_store.py:56-81 | mismatched counts raise and change nothing. Otherwise all chunks are appended in order, in consecutive batches of at most 100. |
| VectorStore.Store.AddInBatches | backend/app/rag/vector_store.py:68-81 | the batch loop appends every item once, in order, one batch per add |
| VectorStore.Store.AddChunkBatch | backend/app/rag/vector_store.py:76-81 | one add appends one batch |
| VectorStore.Store.AddValidatedAnswer | backend/app/rag/vector_store.py:83-95 | one record is appended to the validated answers |
| VectorStore.Store.SearchDocumentChunks | backend/app/rag/vector_store.py:97-108 | the nearest chunks, opening the collection |
| VectorStore.Store.SearchValidatedAnswers | backend/app/rag/vector_store.py:110-119 | the nearest validated answers, opening the collection |
| VectorStore.Store.CollectionStats | backend/app/rag/vector_store.py:121-127 | the record counts of both collections |
| VectorStore.Store.DeleteCollection | backend/app/rag/vector_store.py:129-138 | deleting an existing collection clears only the matching handle; deleting a missing one changes nothing |
| VectorStore.Store.ResetCollections | backend/app/rag/vector_store.py:140-143 | both collections are deleted and both handles cleared |
| ValidationAnalytics.CountAction | backend/app/validation_analytics.py:77-78 | a count never exceeds the log length |
| ValidationAnalytics.CountsBounded | backend/app/validation_analytics.py:76-78 | approved plus feedback never exceeds the total |
| ValidationAnalytics.StatsOf | backend/app/validation_analytics.py:64-93 | the total is the log length. An empty log reports zero rates and the message. Otherwise recent_events is min(total, 10), and the averages are over all confidences and over the processing times present. |
| ValidationAnalytics.StatsRates | backend/app/validation_analytics.py:88-89 | the rates are the shares of approved and feedback events, non-negative and adding up to at most 1 |
| ValidationAnalytics.ShareTimesTotal | backend/app/validation_analytics.py:88-89 | a rate times the total gives back the count |
| ValidationAnalytics.ProcessingTimes | backend/app/validation_analytics.py:83 | only the events that have a processing time contribute |
| ValidationAnalytics.AverageBounds | backend/app/validation_analytics.py:80-84 | an average lies between the smallest and the largest value |
| ValidationAnalytics.CommentedFeedback | backend/app/validation_analytics.py:98-101 | exactly the feedback events with a non-empty comment |
| ValidationAnalytics.SliceTo | backend/app/validation_analytics.py:104 | Python's `[:limit]`, a negative limit counting from the end |
| ValidationAnalytics.RecentFeedback | backend/app/validation_analytics.py:106-114 | one item per selected event, with a 100-character query preview |
| ValidationAnalytics.RecentFeedbackSpec | backend/app/validation_analytics.py:98-104 | at most `limit` items, all commented feedback from the log, newest first. A limit at least their number reports every one. |
| ValidationAnalytics.RecentFeedbackStable | backend/app/validation_analytics.py:104 | events with the same timestamp are reported in log order |
| ValidationAnalytics.Analytics.constructor | backend/app/validation_analytics.py:31-33 | the log starts empty |
| ValidationAnalytics.Analytics.RecordValidationEvent | backend/app/validation_analytics.py:36-62 | exactly one event with the given fields is appended at the end; earlier events are untouched |
| ValidationAnalytics.Analytics.GetSimpleStats | backend/app/validation_analytics.py:64-93 | computes StatsOf of the log |
| ValidationAnalytics.Analytics.GetRecentFeedback | backend/app/validation_analytics.py:95-114 | computes RecentFeedback of the log |
| ValidationAnalytics.Analytics.ClearEvents | backend/app/validation_analytics.py:116-119 | the log is emptied |
| ValidationAnalytics.RecordApproval | backend/app/validation_analytics.py:132-145 | appends an "approved" event whose source count is the number of sources, or 0 when none are given |
| ValidationAnalytics.RecordFeedback | backend/app/validation_analytics.py:147-161 | appends a "feedback" event carrying the comment and the source count |
| Text.Preview | backend/app/validation_analytics.py:108 | the text itself when short enough, otherwise its first `n` characters followed by "..." |
| Text.JoinSplit | backend/app/rag/document_processor.py:89 | joining the lines split at a separator gives the text back |
| Sorting.SortSpec | backend/app/rag/dual_retrieval.py:281 | the sort orders by key and is a permutation |
| Sorting.SortStable | backend/app/validation_analytics.py:104 | the sort is stable: elements with equal keys keep their order |
| Dicts.Put | backend/app/rag/dual_retrieval.py:452 | assignment stores the value under the key, keeps the other keys, keeps a present key's position and appends a new key at the end |

## Left out

- The language model, the embedding service, the tokenizer, MD5, cosine similarity, PDF text extraction and chromadb's nearest-neighbour search are parameters: `Llm`, `Retriever`, `EmbeddingModel` (and `embedQuery`/`embedDocuments` of `RagPipeline.Pipeline`), `Tokenizer`, `md5`, `Nearest` and `pdfReader`. A raised exception is `None` or `Failure`; where the code does not catch it, the model propagates it with the state unchanged.
- `_search_validated` and `_search_rag` (backend/app/rag/dual_retrieval.py:127-253) are the `Search` parameter of `DualRetrievalSystem.Retrieve`. Their distance-to-confidence conversion, the ×1.2, ×0.9 and ×1.05 adjustments, and their source-file fallbacks are not modelled.
- `_update_usage_count` only logs, and `DualRetrievalSystem.get_stats` only reads two sizes; neither is modelled.
- Floating point is modelled as exact reals. This covers confidences, the ×1.15 boost, averages, rates and the 0.3/0.7 combination. Rounding (`round(age, 2)`) and formatting (`:.2f`, `:.1%`) are not modelled.
- MD5 cache keys are the hashed text itself, so hash collisions are not modelled.
- Clocks are parameters. Times are whole seconds, and an entry's age in hours is the difference divided by 3600. Chunk timestamps are one string per `process_*` call, whereas the code reads the clock once per chunk. The event log stores the time as a number, not an ISO string.
- RagPipeline.Pipeline.GenerateEmbeddingsBatch: assumes the embedding service returns one vector per text (`OneVectorPerText`); `zip` silently truncating a shorter answer is not modelled. The trim removes only 100 entries, so a batch of more than 100 new texts can leave the cache above `max_embedding_cache` (RagPipeline.TrimmedSpec).
- LangGraph's checkpointer is a map from thread id to the committed values and the pending node. Its persistence, `MemorySaver` internals and the `stream_mode="messages"` token protocol are not modelled: tokens are the chunks the model returns.
- Api.Server.StreamGraph: a client disconnect is modelled at a step boundary. The run is committed up to the last completed step. LangGraph's own behaviour when a generator is abandoned in the middle of a node is not modelled.
- The SSE transport, `json.dumps` payloads, `print` and logging are not modelled; an event carries its data as fields.
- Concurrency is not modelled: two streams or resumes for one thread at once, and the shared singletons.
- The `where` filter of `search_document_chunks` is not modelled, and neither are chromadb errors such as duplicate ids or a missing collection on delete. `delete_collection` swallows that error, so a delete of a missing name changes nothing.
- `record_approval` and `record_feedback` swallow exceptions. The model has none to swallow.
- `markdown.Markdown(...).convert` in `process_markdown` is computed and discarded, so it is not modelled.
- DualRetrieval.CacheEmbedding: "oldest" means first inserted, as in the code.
- DualRetrieval.CheckCache: the cache key is `Text.Lower` then `Text.Strip`. `Strip` uses Python's full whitespace set, but `Lower` maps only A–Z and the Latin-1 capitals. Other Unicode capitals (Greek, Cyrillic and so on) are kept, so two queries that differ only in those letters get separate entries where `query.lower()` would share one. The same key is used by RagPipeline.Pipeline.Retrieve.
- DocumentProcessor.FencedBlocks: the language tag `(\w+)?` matches only ASCII letters, digits and `_` (`IsWordChar`), so a fence whose tag has a non-ASCII letter, such as "```pythön", is not found, where Python's Unicode `\w` would find it.
- DocumentProcessor.CreateChunk: `has_code` (`    \w+`) uses the same ASCII `IsWordChar`, so four spaces followed by a non-ASCII letter do not set it.
- DualRetrieval.CheckCache: a hit returns the cached result object, marked in place; the model returns the marked copy and stores it back.
- ValidationAnalytics.StatsRates: states each rate as `Share(count, total)` (count divided by total) rather than as `rate * total == count`; ValidationAnalytics.ShareTimesTotal supplies that reading.
