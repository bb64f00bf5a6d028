# Chess assistant backend: a Dafny model of its deterministic core

The backend answers chess questions through a LangGraph graph. A supervisor picks one of
two specialists. One is a RAG agent that searches a Qdrant "chess_knowledge" collection.
The other is a chess agent whose tools query the Chess.com public API. A knowledge-base
API ingests, lists, deletes and overwrites uploaded documents.

This project models the logic in that glue that can be stated exactly:

- the routing state machine and the state each graph node returns;
- retrieval post-processing: query expansion, the expansion fallback, de-duplication by
  (content prefix, filename), and packing documents into a context under a character budget;
- ingestion: content-type dispatch, chunk filtering and numbering, and point building;
- the knowledge endpoints: upload checks, per-filename aggregation over scroll pages,
  id collection for deletion, and overwrite sequencing;
- the Chess.com tools: query parsing, PGN detection, rating entries and analyses,
  opening tallies with a top-5 cut, the month wrap-around, and the recent-game selection;
- game statistics: length buckets, opening families, and result and opening tallies;
- the embedding client's key handling and its three-attempt retry with doubling waits.

Every external result is an input value:
- LLM replies, embedding calls and Qdrant answers are `Outcome`s;
- scroll answers are a sequence of pages;
- Chess.com answers are `Fetch` values (a JSON body, a non-200 status, or a raised error),
  given per URL by functions from URL to answer;
- python-chess is a parse function from text to an optional game, and a game is its
  headers and a list of moves flagged as capture or check.

Each file holds one module:

- `wrappers.dfy`: Option, Result and Outcome.
- `text.dfy`: Python's `strip`, `split`, `join`, `lower` and `title` (ASCII), substring
  search, integer printing, and slicing with negative bounds.
- `sorting.dfy`: a stable descending sort.
- `tally.dfy`: an insertion-ordered counter and its stable top-n cut.
- `errors.dfy`: HTTP errors and the two exception-handler shapes the endpoints use.
- `chess_com.dfy`: the Chess.com JSON shapes.
- The rest follow the source files: `multi_agent_graph.dfy`, `retrieve.dfy`,
  `ingest.dfy`, `knowledge.dfy`, `embedding.dfy`, `agent_tools.dfy` (agents/tools.py),
  `chess_tools.dfy` (tools/chess_tools.py) and `chess_parsers.dfy`.

Loops and objects that change state in the source are methods with loop invariants or
classes with fields. Each method is proved equal to a specification function, and the
lemmas state the properties of that function.

## Model


| member | source | states |
|---|---|---|
| MultiAgentGraph.RouteDecision | 05_Our_First_Agent_with_LangGraph/backend/agents/multi_agent_graph.py:60-68 | The route is always rag_agent or chess_agent. It is chess_agent exactly when the reply mentions "chess_agent" and does not mention "rag_agent". |
| MultiAgentGraph.SupervisorNode | 05_Our_First_Agent_with_LangGraph/backend/agents/multi_agent_graph.py:31-82 | Without an OpenAI key: a single error AIMessage and current agent "supervisor". With a key and a reply: the messages are unchanged and the current agent is the decision parsed from the trimmed, lowercased reply. |
| MultiAgentGraph.RagNode | 05_Our_First_Agent_with_LangGraph/backend/agents/multi_agent_graph.py:84-140 | Every path appends exactly one AIMessage to the incoming messages. No documents gives the fixed "not enough information" text with rag_sources 0. Otherwise rag_sources is the number of documents retrieved. A nonzero rag_sources always comes from a retrieval. |
| MultiAgentGraph.ChessNode | 05_Our_First_Agent_with_LangGraph/backend/agents/multi_agent_graph.py:142-214 | Every path appends exactly one AIMessage. The reply is the model's answer, or the follow-up answer when the model asked for tools. rag_sources is carried over unchanged. |
| MultiAgentGraph.ShouldContinue | 05_Our_First_Agent_with_LangGraph/backend/agents/multi_agent_graph.py:216-225 | Always rag_agent or chess_agent. Either of those two is kept, and anything else becomes rag_agent. |
| MultiAgentGraph.RunShape | 05_Our_First_Agent_with_LangGraph/backend/agents/multi_agent_graph.py:227-255 | Executing the wired graph from its entry reaches END with the path [supervisor, specialist]. The final state is the specialist's update applied to the supervisor's. |
| MultiAgentGraph.QueryWithKey | 05_Our_First_Agent_with_LangGraph/backend/agents/multi_agent_graph.py:277-297 | With a key, the final conversation is the question plus one reply. The response is that reply, the agent used is the supervisor's decision, and the caller's conversation state is returned. |
| MultiAgentGraph.QueryWithoutKey | 05_Our_First_Agent_with_LangGraph/backend/agents/multi_agent_graph.py:37-41 | Without a key, the supervisor's error replaces the conversation. The default route runs the RAG agent, which appends the same error. The response is that error, with agent rag_agent and 0 sources. |
| MultiAgentGraph.ConversationPreserved | 05_Our_First_Agent_with_LangGraph/backend/agents/multi_agent_graph.py:292-297 | Whatever the replies, the response carries the caller's conversation state unchanged. |
| MultiAgentGraph.ChessMultiAgentSystem.constructor | 05_Our_First_Agent_with_LangGraph/backend/agents/multi_agent_graph.py:27-29 | Starts with no graph and no compiled graph. |
| MultiAgentGraph.ChessMultiAgentSystem.CreateGraph | 05_Our_First_Agent_with_LangGraph/backend/agents/multi_agent_graph.py:227-255 | Stores the fixed wiring: entry supervisor, conditional edges to the two specialists, both specialists to END. |
| MultiAgentGraph.ChessMultiAgentSystem.CompileGraph | 05_Our_First_Agent_with_LangGraph/backend/agents/multi_agent_graph.py:257-263 | Builds the graph if it is missing, then stores the compiled graph. |
| MultiAgentGraph.ChessMultiAgentSystem.ProcessQuery | 05_Our_First_Agent_with_LangGraph/backend/agents/multi_agent_graph.py:265-305 | Compiles on first use. A runtime exception gives agent "error", 0 sources and the caller's conversation state; otherwise the result is the run's. |
| Retrieve.Expansions | 05_Our_First_Agent_with_LangGraph/backend/rag/retrieve.py:14-33 | The expansion list starts with the query and holds at most five queries. After the query come the matched groups' expansions, in table order, as many as fit. |
| Retrieve.ExpansionsFromTerms | 05_Our_First_Agent_with_LangGraph/backend/rag/retrieve.py:19-31 | Every query after the first is an expansion listed for a keyword that occurs in the lowered query. |
| Retrieve.GroupsMembers | 05_Our_First_Agent_with_LangGraph/backend/rag/retrieve.py:28-31 | A query is among the added expansions exactly when it belongs to a group whose keyword occurs in the lowercased query. |
| Retrieve.GroupsInOrder | 05_Our_First_Agent_with_LangGraph/backend/rag/retrieve.py:19-31 | Groups are appended in table order: scanning a split table yields the first half's groups, then the second's. |
| Retrieve.ExpandQuery | 05_Our_First_Agent_with_LangGraph/backend/rag/retrieve.py:14-33 | The loop returns exactly the expansion list. |
| Retrieve.FormatHits | 05_Our_First_Agent_with_LangGraph/backend/rag/retrieve.py:60-70 | Hits are formatted in order, one document per hit. The result fails as soon as one hit has no content. |
| Retrieve.FirstHitsSpec | 05_Our_First_Agent_with_LangGraph/backend/rag/retrieve.py:74-96 | Expanded queries are tried in order, each with limit // 2. The loop stops at the first one that yields hits, and earlier ones yielded none. |
| Retrieve.DedupSpec | 05_Our_First_Agent_with_LangGraph/backend/rag/retrieve.py:98-105 | De-duplication keeps only documents of the input. It keeps one document per (first 100 characters, filename) key, every key of the input, and the first document of each key. The kept documents sit at strictly increasing input positions. |
| Retrieve.DedupSorted | 05_Our_First_Agent_with_LangGraph/backend/rag/retrieve.py:101-105 | De-duplication preserves the non-increasing score order. |
| Retrieve.SearchResultShape | 05_Our_First_Agent_with_LangGraph/backend/rag/retrieve.py:35-114 | Hits from the first search come back as they came. After the fallback, the results are in non-increasing score order, have no duplicate key, and number at most limit. |
| Retrieve.FormatAll | 05_Our_First_Agent_with_LangGraph/backend/rag/retrieve.py:60-70 | The formatting loop equals FormatHits. |
| Retrieve.RemoveDuplicates | 05_Our_First_Agent_with_LangGraph/backend/rag/retrieve.py:99-105 | The seen-set loop equals the first-of-each-key de-duplication. |
| Retrieve.TryExpansions | 05_Our_First_Agent_with_LangGraph/backend/rag/retrieve.py:74-96 | The fallback loop equals FirstHits. |
| Retrieve.SearchSimilarDocuments | 05_Our_First_Agent_with_LangGraph/backend/rag/retrieve.py:35-114 | Returns SearchResult's documents. Any exception yields no documents. |
| Retrieve.PackWholeChunks | 05_Our_First_Agent_with_LangGraph/backend/rag/retrieve.py:145-159 | The whole documents come first, in document order, each as its full text. |
| Retrieve.PackBudget | 05_Our_First_Agent_with_LangGraph/backend/rag/retrieve.py:150-159 | The whole documents' total length never exceeds max_chars. With the separator-counting cost, it stays within max_chars together with one newline per whole document. |
| Retrieve.PackCut | 05_Our_First_Agent_with_LangGraph/backend/rag/retrieve.py:160-173 | At most one cut document follows, only when more than 100 characters remain, and packing then stops. |
| Retrieve.PartialLength | 05_Our_First_Agent_with_LangGraph/backend/rag/retrieve.py:161-166 | Gives the length of a cut document's text under the as-written cut and under the corrected cut. |
| Retrieve.PackWithinBudget | 05_Our_First_Agent_with_LangGraph/backend/rag/retrieve.py:145-175 | When each whole document is also charged its joining newline and the cut counts the header, the newline-joined context stays within max_chars. |
| Retrieve.JoinLength | 05_Our_First_Agent_with_LangGraph/backend/rag/retrieve.py:175 | Joining n parts adds n - 1 separators to their total length. |
| Retrieve.PackOverflowsAsWritten | 05_Our_First_Agent_with_LangGraph/backend/rag/retrieve.py:160-166 | A concrete document for which the as-written cut gives a 177-character context under max_chars 150. |
| Retrieve.SeparatorsOverflowAsWritten | 05_Our_First_Agent_with_LangGraph/backend/rag/retrieve.py:151-175 | Two concrete documents whose parts total exactly max_chars (32) give a 33-character joined context. |
| Retrieve.ContextOf | 05_Our_First_Agent_with_LangGraph/backend/rag/retrieve.py:131-181 | No documents gives count 0 and empty score and source lists. The count, the number of scores and the number of sources are always equal, and sources follow document order. |
| Retrieve.PackContext | 05_Our_First_Agent_with_LangGraph/backend/rag/retrieve.py:145-181 | The packing loop, with its running total, equals ContextOf. |
| Retrieve.GetContextForQuery | 05_Our_First_Agent_with_LangGraph/backend/rag/retrieve.py:116-190 | Searches with max_chunks as the limit and packs the result. A failure gives the empty context. |
| Ingest.Dispatch | 05_Our_First_Agent_with_LangGraph/backend/rag/ingest.py:54-67 | The PDF, image and plain-text branches are chosen in that order, each exactly when its test holds. Every other type is a 400 "Unsupported file type". |
| Ingest.ProcessFileContent | 05_Our_First_Agent_with_LangGraph/backend/rag/ingest.py:43-67 | An image gives the OCR placeholder naming the file. PDF and text give the extracted text. HTTP errors are 400s; a text read failure is passed on as a plain exception. |
| Ingest.StripAll | 05_Our_First_Agent_with_LangGraph/backend/rag/ingest.py:77-80 | Each split is stripped, position by position. |
| Ingest.ChunkDataSpec | 05_Our_First_Agent_with_LangGraph/backend/rag/ingest.py:69-90 | Each kept chunk is the non-empty stripped split at its chunk_index, and indices increase. Every non-blank split is kept. total_chunks counts all splits, blank ones included. |
| Ingest.KeptContents | 05_Our_First_Agent_with_LangGraph/backend/rag/ingest.py:77-89 | Kept chunks are non-empty stripped splits with their own index and metadata. |
| Ingest.KeptIncreasing | 05_Our_First_Agent_with_LangGraph/backend/rag/ingest.py:77-89 | Chunk indices strictly increase. |
| Ingest.KeptComplete | 05_Our_First_Agent_with_LangGraph/backend/rag/ingest.py:78 | Every non-blank split has a chunk. |
| Ingest.ChunkText | 05_Our_First_Agent_with_LangGraph/backend/rag/ingest.py:69-93 | The append loop equals ChunkData. A splitter error gives a 500 "Error processing text". |
| Ingest.Points | 05_Our_First_Agent_with_LangGraph/backend/rag/ingest.py:135-150 | On success there is one point per chunk, in order, with the chunk's embedding, its metadata, content and the file hash. A failure is some chunk's embedding failure. |
| Ingest.BuildPoints | 05_Our_First_Agent_with_LangGraph/backend/rag/ingest.py:135-150 | The point-building loop equals Points. |
| Ingest.PointsPrefixRaised | 05_Our_First_Agent_with_LangGraph/backend/rag/ingest.py:136-139 | The first failing embedding stops the loop: a failure on a prefix is the failure of the whole. |
| Ingest.Preview | 05_Our_First_Agent_with_LangGraph/backend/rag/ingest.py:164 | Text of at most 200 characters is kept whole. Longer text becomes its first 200 characters and "...". |
| Ingest.Upload | 05_Our_First_Agent_with_LangGraph/backend/rag/ingest.py:95-178 | A failed upload stores nothing and raises an HTTP error. |
| Ingest.UploadRefusesBlankText | 05_Our_First_Agent_with_LangGraph/backend/rag/ingest.py:115-119 | Text that is all whitespace is refused with the 400 "No text content" error, and nothing is stored. |
| Ingest.UploadStoresOnePointPerChunk | 05_Our_First_Agent_with_LangGraph/backend/rag/ingest.py:121-163 | A successful upload stores one point per chunk, carrying that chunk's metadata, content and the file hash. chunks_created equals that non-zero count. |
| Ingest.UploadToQdrant | 05_Our_First_Agent_with_LangGraph/backend/rag/ingest.py:95-178 | The method's stored points and response equal Upload. |
| Errors.Reraise | 05_Our_First_Agent_with_LangGraph/backend/rag/ingest.py:172-178 | An HTTPException passes through unchanged. Any other exception becomes a 500 whose detail is the prefix and its text. |
| Errors.CatchAll | 05_Our_First_Agent_with_LangGraph/backend/routers/knowledge.py:290-295 | Every exception, HTTP ones included, becomes a 500 whose detail is the prefix and str(e), which for an HTTPException is "status: detail". |
| Knowledge.ScanSpec | 05_Our_First_Agent_with_LangGraph/backend/routers/knowledge.py:148-175 | The paging loop asks first with the given offset, then with each page's next offset. It stops on an empty page or a null offset, and reads every point of the pages it asked for. |
| Knowledge.AddPoint | 05_Our_First_Agent_with_LangGraph/backend/routers/knowledge.py:160-171 | A known filename keeps its place. A new one is appended with the first point's metadata and count 1, exactly when no entry has that name. |
| Knowledge.AggregateIsTally | 05_Our_First_Agent_with_LangGraph/backend/routers/knowledge.py:160-171 | The files map, read as name and count, is the tally of the points' filenames. |
| Knowledge.AggregateFirstSeen | 05_Our_First_Agent_with_LangGraph/backend/routers/knowledge.py:162-169 | Each file entry holds the metadata of the first point carrying its name. |
| Knowledge.AggregateNames | 05_Our_First_Agent_with_LangGraph/backend/routers/knowledge.py:160-171 | The listing names exactly the filenames of the points read. |
| Knowledge.CountsAddPoint | 05_Our_First_Agent_with_LangGraph/backend/routers/knowledge.py:162-171 | Counting one point into the files map is one tally increment of its filename. |
| Knowledge.SumCountsIsTotal | 05_Our_First_Agent_with_LangGraph/backend/routers/knowledge.py:182 | The sum of the chunk counts is the tally's total. |
| Knowledge.ListingCounts | 05_Our_First_Agent_with_LangGraph/backend/routers/knowledge.py:177-182 | Each filename appears once. Its chunk_count is the number of points with that name, total_files is the number of distinct names, and total_chunks is the number of points read. |
| Knowledge.ListingWithoutClient | 05_Our_First_Agent_with_LangGraph/backend/routers/knowledge.py:137-142 | Without a client, the 503 is caught by the generic handler and reported as a 500 "Error listing files: 503: ...". |
| Knowledge.ListChessKnowledgeFiles | 05_Our_First_Agent_with_LangGraph/backend/routers/knowledge.py:126-190 | The paging loop equals ListFiles, and the offsets it asks for are those of ScanFrom. |
| Knowledge.CountPage | 05_Our_First_Agent_with_LangGraph/backend/routers/knowledge.py:160-171 | Counting one page's points extends the aggregate of the points read so far. |
| Knowledge.AllowedTypesDispatch | 05_Our_First_Agent_with_LangGraph/backend/routers/knowledge.py:28-40 | Every admitted type is one the ingestor reads. image/webp is refused here although the ingestor would read it. |
| Knowledge.UploadEndpoint | 05_Our_First_Agent_with_LangGraph/backend/routers/knowledge.py:14-88 | A type outside the five allowed is a 400 and stores nothing. An existing file gives exists and stores nothing. A successful upload happened only after the duplicate check found nothing. |
| Knowledge.UploadErrorsPassThrough | 05_Our_First_Agent_with_LangGraph/backend/routers/knowledge.py:80-82 | The ingestion's HTTP errors reach the caller unchanged. |
| Knowledge.UploadChessKnowledge | 05_Our_First_Agent_with_LangGraph/backend/routers/knowledge.py:14-88 | The method equals UploadEndpoint. |
| Knowledge.Ids | 05_Our_First_Agent_with_LangGraph/backend/routers/knowledge.py:235 | One id per point, in order. |
| Knowledge.DeleteSpec | 05_Our_First_Agent_with_LangGraph/backend/routers/knowledge.py:192-268 | The ids deleted are those of every point on every page read. No ids gives 404, otherwise chunks_deleted is their number. |
| Knowledge.DeleteChessKnowledgeFile | 05_Our_First_Agent_with_LangGraph/backend/routers/knowledge.py:214-258 | The id-collecting loop equals DeleteFile. |
| Knowledge.Overwrite | 05_Our_First_Agent_with_LangGraph/backend/routers/knowledge.py:270-295 | Deletion comes first. Every failure is a 500 and stores nothing. Success means the deletion succeeded with the ids it reports. |
| Knowledge.OverwriteMissingFile | 05_Our_First_Agent_with_LangGraph/backend/routers/knowledge.py:279-295 | Overwriting a file that is not stored fails before any upload, with a 500 whose detail holds the 404. |
| Knowledge.OverwriteLosesFileOnFailedUpload | 05_Our_First_Agent_with_LangGraph/backend/routers/knowledge.py:279-283 | If the upload fails after the deletion succeeded, the old chunks are gone and nothing replaces them. |
| Knowledge.OverwriteChessKnowledgeFile | 05_Our_First_Agent_with_LangGraph/backend/routers/knowledge.py:270-295 | The method equals Overwrite. |
| Embedding.RetryPolicy | 05_Our_First_Agent_with_LangGraph/backend/aimakerspace/openai_utils/embedding.py:64-75 | At most three attempts. All attempts but the last failed, the result is the last attempt's, and a failure only after the third. Wait i is 2^(attempt index). |
| Embedding.RetryWaits | 05_Our_First_Agent_with_LangGraph/backend/aimakerspace/openai_utils/embedding.py:66-74 | From the start, 1 to 3 attempts with waits drawn from [1, 2]. A first success makes no further attempt. |
| Embedding.EmbeddingModel.constructor | 05_Our_First_Agent_with_LangGraph/backend/aimakerspace/openai_utils/embedding.py:9-23 | The key is the argument if truthy, else the environment's. Both clients exist with a key; without one, both are None. |
| Embedding.EnsuredClients | 05_Our_First_Agent_with_LangGraph/backend/aimakerspace/openai_utils/embedding.py:26-34 | The clients `_ensure_client` leaves: unchanged without a key; with a key, both present, kept when both existed and created from the key when either was missing. |
| Embedding.EnsuredIdempotent | 05_Our_First_Agent_with_LangGraph/backend/aimakerspace/openai_utils/embedding.py:26-34 | Ensuring the clients a second time changes nothing. |
| Embedding.EmbeddingModel.EnsureClient | 05_Our_First_Agent_with_LangGraph/backend/aimakerspace/openai_utils/embedding.py:26-34 | Without a key it raises the missing-key error and changes nothing. With one it keeps existing clients, or creates both if either is missing. |
| Embedding.EmbeddingModel.GetEmbeddings | 05_Our_First_Agent_with_LangGraph/backend/aimakerspace/openai_utils/embedding.py:50-55 | Without a key it raises the missing-key error; otherwise it returns the API's answer. The clients end up as EnsureClient leaves them: unchanged without a key, created when either was missing, kept when both existed. |
| Embedding.EmbeddingModel.GetEmbeddingsWithBackoff | 05_Our_First_Agent_with_LangGraph/backend/aimakerspace/openai_utils/embedding.py:64-75 | The retry loop's result, waits and attempt count are those of the retry policy. A missing key fails every attempt. The clients end up as one EnsureClient call leaves them, because later calls change nothing more. |
| ChessParsers.LengthClass | 05_Our_First_Agent_with_LangGraph/backend/utils/chess_parsers.py:60-65 | short exactly below 40 moves, medium exactly for 40-79, long from 80. |
| ChessParsers.LengthClassMonotone | 05_Our_First_Agent_with_LangGraph/backend/utils/chess_parsers.py:60-65 | More moves never give a shorter bucket. |
| ChessParsers.ExtractGameStats | 05_Our_First_Agent_with_LangGraph/backend/utils/chess_parsers.py:18-67 | No game gives no stats. Otherwise total_moves and total_plies are the move count, captures and checks are at most it, and the headers take their defaults. |
| ChessParsers.AnyContains | 05_Our_First_Agent_with_LangGraph/backend/utils/chess_parsers.py:96 | True exactly when some pattern occurs in the name. |
| ChessParsers.FirstFamily | 05_Our_First_Agent_with_LangGraph/backend/utils/chess_parsers.py:82-99 | The if/elif chain gives the first family in table order whose pattern matches. |
| ChessParsers.FirstMatchOther | 05_Our_First_Agent_with_LangGraph/backend/utils/chess_parsers.py:98-99 | The family is "Other" exactly when no row matches. |
| ChessParsers.FamilyPriority | 05_Our_First_Agent_with_LangGraph/backend/utils/chess_parsers.py:82-99 | Sicilian Defense exactly when "sicilian" occurs in the lowercased name. "Other" exactly when none of the patterns occurs. |
| ChessParsers.FirstMatchNotFirst | 05_Our_First_Agent_with_LangGraph/backend/utils/chess_parsers.py:84-99 | A table without the Sicilian row never yields Sicilian Defense. |
| ChessParsers.OpeningClassification | 05_Our_First_Agent_with_LangGraph/backend/utils/chess_parsers.py:73-101 | eco, opening and variation are the headers or "Unknown". The family is the first match over the lowercased opening. |
| ChessParsers.ResultsCounted | 05_Our_First_Agent_with_LangGraph/backend/utils/chess_parsers.py:110-125 | Each results field equals the number of games whose Result header (default "*") is that result. |
| ChessParsers.ResultsAtMostGames | 05_Our_First_Agent_with_LangGraph/backend/utils/chess_parsers.py:123-125 | Only the four known results are tallied, so their sum is at most the number of games. |
| ChessParsers.OpeningsLength | 05_Our_First_Agent_with_LangGraph/backend/utils/chess_parsers.py:119-121 | One opening is counted per parsed game. |
| ChessParsers.AnalyzeMultipleGames | 05_Our_First_Agent_with_LangGraph/backend/utils/chess_parsers.py:103-142 | An empty list gives "No games provided", and nothing parsed gives "No valid games found". Otherwise total_games is the number parsed and the tallies are those of the parsed games. |
| ChessParsers.SummaryBounds | 05_Our_First_Agent_with_LangGraph/backend/utils/chess_parsers.py:131-139 | Each opening's count is its number of games, and the counts sum to total_games. Each results_distribution field counts the games with that Result header; together they are at most total_games. The listed openings are min(5, distinct openings) of the counted ones, most common first, none less common than one left out. |
| Tally.Increment | 05_Our_First_Agent_with_LangGraph/backend/agents/tools.py:299 | A known name keeps its place; a new one is appended with count 1. |
| Tally.IncrementCounts | 05_Our_First_Agent_with_LangGraph/backend/agents/tools.py:299-301 | An increment raises that name's count and the total by one, leaves other names alone and keeps names distinct. |
| Tally.CountCorrect | 05_Our_First_Agent_with_LangGraph/backend/utils/chess_parsers.py:120-121 | Each name's count is its number of occurrences. The total is the number of names, and names are distinct. |
| Tally.TopSelects | 05_Our_First_Agent_with_LangGraph/backend/agents/tools.py:304-305 | The top n is min(n, size) entries of the tally in non-increasing count order. No dropped entry has a higher count than a kept one. |
| Tally.TopKeepsTieOrder | 05_Our_First_Agent_with_LangGraph/backend/utils/chess_parsers.py:139 | Among equal counts, the kept entries are a prefix of the tally's order (first seen first). |
| Sorting.SortDesc | 05_Our_First_Agent_with_LangGraph/backend/tools/chess_tools.py:183 | The result is a permutation of the input in non-increasing key order. |
| Sorting.SortStable | 05_Our_First_Agent_with_LangGraph/backend/rag/retrieve.py:101 | Elements with equal keys keep their input order. |
| AgentTools.IsPgnContent | 05_Our_First_Agent_with_LangGraph/backend/agents/tools.py:86-88 | True exactly when the text contains "[Event", or contains "1." and one of e4, d4, Nf3, c4. |
| AgentTools.PlainTextIsNotPgn | 05_Our_First_Agent_with_LangGraph/backend/agents/tools.py:86-88 | Text without '.' and '[' is never PGN. |
| AgentTools.ParseQuerySpec | 05_Our_First_Agent_with_LangGraph/backend/agents/tools.py:104-118 | No '/' means recent games for the stripped query. Two '/' means monthly games, with the parts joining back to the query. Any other count is invalid. |
| AgentTools.ParseJoined | 05_Our_First_Agent_with_LangGraph/backend/agents/tools.py:113-116 | A stripped, slash-joined user, year and month parse back to themselves. |
| AgentTools.LastSegmentSpec | 05_Our_First_Agent_with_LangGraph/backend/agents/tools.py:295 | `split("/")[-1]` is the longest '/'-free suffix. |
| AgentTools.OpeningNameSpec | 05_Our_First_Agent_with_LangGraph/backend/agents/tools.py:289-295 | A non-empty eco URL gives its last segment, with '-' turned into spaces and title-cased; otherwise the name is "Unknown". |
| AgentTools.OpeningNameChars | 05_Our_First_Agent_with_LangGraph/backend/agents/tools.py:295 | An opening name contains neither '/' nor '-'. |
| AgentTools.RecentSliceKeepsLast | 05_Our_First_Agent_with_LangGraph/backend/agents/tools.py:147 | A positive limit keeps the last min(limit, n) games; a limit of 0 keeps them all. |
| AgentTools.PgnsOfSpec | 05_Our_First_Agent_with_LangGraph/backend/agents/tools.py:148 | The kept PGNs are exactly the non-empty PGNs of the games, one per game that has one. |
| AgentTools.PgnsOfAppend | 05_Our_First_Agent_with_LangGraph/backend/agents/tools.py:148 | The comprehension is an in-order filter: the PGNs of two concatenated lists are those of each list, in order. |
| AgentTools.RecentGamesSpec | 05_Our_First_Agent_with_LangGraph/backend/agents/tools.py:120-161 | Analysed games come from the last archive listed. 1 ≤ games_analyzed ≤ limit, and games_analyzed equals the number of PGNs kept from the last limit games. |
| AgentTools.ParsedAtMost | 05_Our_First_Agent_with_LangGraph/backend/agents/tools.py:152-156 | No more games parse than PGNs were given. |
| AgentTools.MonthlyGamesSpec | 05_Our_First_Agent_with_LangGraph/backend/agents/tools.py:163-191 | The monthly report analyses the PGNs of that month's URL. games_analyzed equals the number of games with a non-empty PGN. |
| AgentTools.GameAnalyzerRoutes | 05_Our_First_Agent_with_LangGraph/backend/agents/tools.py:70-118 | PGN text is parsed and analysed on its own. Anything else is routed by the query format: recent (limit 10) with no '/', the month named by the three fields with two '/', or the invalid-format text otherwise. |
| AgentTools.CurrentRatingsSpec | 05_Our_First_Agent_with_LangGraph/backend/agents/tools.py:51-54 | The ratings name exactly the controls that have "last", under the short key, each with its last rating. They fail exactly when such a control lacks "rating". |
| AgentTools.CurrentRatings | 05_Our_First_Agent_with_LangGraph/backend/agents/tools.py:51-54 | The loop equals CurrentRatingsOf. |
| AgentTools.RaisedStays | 05_Our_First_Agent_with_LangGraph/backend/agents/tools.py:52-54 | The first KeyError ends the loop. |
| AgentTools.ChessComPlayer | 05_Our_First_Agent_with_LangGraph/backend/agents/tools.py:18-62 | A missing profile gives the "not found" text. Stats that cannot be fetched give empty ratings. |
| AgentTools.EmptyStatsNoRatings | 05_Our_First_Agent_with_LangGraph/backend/agents/tools.py:37 | Empty stats give no ratings. |
| AgentTools.WinRateSpec | 05_Our_First_Agent_with_LangGraph/backend/agents/tools.py:272-277 | 0 without games. Otherwise win rate × games = 100 × wins, and with non-negative counts it lies in 0..100. |
| AgentTools.PercentBounds | 05_Our_First_Agent_with_LangGraph/backend/agents/tools.py:277 | A share of wins within the total is a percentage in 0..100. |
| AgentTools.RatingsAnalysisSpec | 05_Our_First_Agent_with_LangGraph/backend/agents/tools.py:248-266 | There is an entry for exactly the controls present, under the short name, with last and best defaulting to 0 and games win + loss + draw. |
| AgentTools.AnalyzeRatings | 05_Our_First_Agent_with_LangGraph/backend/agents/tools.py:248-266 | The loop equals RatingsAnalysisOf. |
| AgentTools.RepertoireSpec | 05_Our_First_Agent_with_LangGraph/backend/agents/tools.py:279-307 | Each side lists at most 5 openings with their true counts, the most frequent, ties kept first seen. The totals count every game of that colour, cut openings included. |
| AgentTools.OpeningsStep | 05_Our_First_Agent_with_LangGraph/backend/agents/tools.py:297-301 | One game adds its opening to the tally of the colour it counts for. |
| AgentTools.AnalyzeOpenings | 05_Our_First_Agent_with_LangGraph/backend/agents/tools.py:279-307 | The counting loop equals RepertoireOf. |
| AgentTools.RatingTracker | 05_Our_First_Agent_with_LangGraph/backend/agents/tools.py:199-246 | With stats fetched and an archive list that did not fail, a message instead of data means the month fetch failed. |
| ChessTools.RatingEntriesSpec | 05_Our_First_Agent_with_LangGraph/backend/tools/chess_tools.py:54-62 | Entries exist exactly for the game types with "last". They fail exactly when such a type lacks one of the keys read. |
| ChessTools.EntryGames | 05_Our_First_Agent_with_LangGraph/backend/tools/chess_tools.py:59-61 | An entry's games count is win + loss + draw, and its rating is last.rating. |
| ChessTools.RatingEntries | 05_Our_First_Agent_with_LangGraph/backend/tools/chess_tools.py:54-62 | The loop equals RatingEntriesOf. |
| ChessTools.EntriesRaisedStay | 05_Our_First_Agent_with_LangGraph/backend/tools/chess_tools.py:55-62 | The first KeyError ends the loop. |
| ChessTools.PlayerLinesSpec | 05_Our_First_Agent_with_LangGraph/backend/tools/chess_tools.py:65-81 | Six head lines, then one line per entry in order. With no entry there is a single "No rating information available" line. |
| ChessTools.BuildPlayerLines | 05_Our_First_Agent_with_LangGraph/backend/tools/chess_tools.py:65-79 | The append loop equals PlayerLines. |
| ChessTools.GetPlayerStats | 05_Our_First_Agent_with_LangGraph/backend/tools/chess_tools.py:14-85 | The tool's text equals PlayerStats. |
| ChessTools.NoStatsNoRatings | 05_Our_First_Agent_with_LangGraph/backend/tools/chess_tools.py:40-79 | Stats that are missing or have no "last" give the text with the no-rating line. |
| ChessTools.ParsedPgnNeverAnalysed | 05_Our_First_Agent_with_LangGraph/backend/tools/chess_tools.py:88-134 | As written, an unparsable PGN gives the "Invalid PGN format" text and a parsed one the attribute error. |
| ChessTools.AnalyzePgnReports | 05_Our_First_Agent_with_LangGraph/backend/tools/chess_tools.py:107-130 | As intended, a parsed game gives its 16 analysis lines: players, move count and length bucket. This always differs from the as-written text. |
| ChessTools.MonthBackSpec | 05_Our_First_Agent_with_LangGraph/backend/tools/chess_tools.py:160-166 | For a calendar month and an offset below 12, the result is a calendar month exactly that many months earlier. |
| ChessTools.Pad2Spec | 05_Our_First_Agent_with_LangGraph/backend/tools/chess_tools.py:168 | A month prints as two digits that read back as the month. |
| ChessTools.CollectSpec | 05_Our_First_Agent_with_LangGraph/backend/tools/chess_tools.py:159-177 | The games collected are those of the first n months, newest first, for some n ≤ 3. Stopping before the third month means that month brought games and limit was reached. Every earlier month neither raised nor brought the total to limit. |
| ChessTools.CollectRaises | 05_Our_First_Agent_with_LangGraph/backend/tools/chess_tools.py:170-177 | A failure is one of the month fetches. |
| ChessTools.CollectRecent | 05_Our_First_Agent_with_LangGraph/backend/tools/chess_tools.py:159-177 | The month loop equals CollectFrom. |
| ChessTools.NewestSelects | 05_Our_First_Agent_with_LangGraph/backend/tools/chess_tools.py:182-184 | Keeps min(limit, n) of the collected games (for a negative limit, all but the last -limit, as Python's slice does), newest first by end_time (missing counts as 0). No dropped game ended later than a kept one. |
| ChessTools.RecentLinesSpec | 05_Our_First_Agent_with_LangGraph/backend/tools/chess_tools.py:189-208 | The head lines, then one line per game for at most 5 games, numbered from 1. |
| ChessTools.BuildRecentLines | 05_Our_First_Agent_with_LangGraph/backend/tools/chess_tools.py:202-208 | The append loop equals RecentLines. |
| ChessTools.GetRecentGames | 05_Our_First_Agent_with_LangGraph/backend/tools/chess_tools.py:137-214 | No games gives the "No recent games found" text, and a failure the error text. Otherwise the text is the listing. |

## Left out

- Network, model and store calls: Chess.com HTTP, OpenAI chat and embeddings, and Qdrant search, scroll, upsert, delete and collection info. Their results are parameters.
- `get_document_retriever`, which multi_agent_graph.py imports but retrieve.py does not define; the RAG node takes the retrieval and answer as inputs.
- LangGraph's compilation, ToolNode and the tool-calling loop: the graph is a value run by a small interpreter, and tool results are inputs.
- async/await and `asyncio.sleep`: waits are returned as numbers, not slept.
- Floating point: similarity scores are integers, `score_threshold * 0.8` is a flag of the search request, and `tactical_complexity`, averages and `analyze_multiple_games`' `win_percentage` are left out.
- AgentTools.WinRateSpec: the win rate is exact, without `round(..., 1)`.
- python-chess: a game is its headers and a list of moves flagged as capture or check; parsing is a function parameter.
- md5 hashes, uuid point ids, temporary files, PDF and image extraction, and the text splitter: their outputs are parameters.
- `datetime.now()`: the current year and month are parameters of the recent-games tool.
- Casing is ASCII only for `lower()` and `title()`.
- JSON serialisation: the agent tools return the data they would serialise.
- The analyzer's outer "Error analyzing games" handler and the tools' outer handlers for errors outside the modelled code.
- `str(game.get("white", {}))` is not rendered: a side carries its printed form as a field, and the colour test runs on that field.
- The in-place `games_data.sort` is modelled as a stable sort on a sequence value.
- A missing "archives" or "games" key in agents/tools.py reads as an empty list.
- The knowledge search and stats endpoints (routers/knowledge.py:90-124 and 297-330): they forward to the retriever and the store with no logic of their own.
- `async_get_embeddings`, `get_embedding` and `async_get_embedding` behave like GetEmbeddings and are not repeated.
- Knowledge scroll calls beyond the supplied pages answer with an empty page, so every paging loop stops.

## Findings

| source | as written | input that shows it | evidently intended | confidence | as-written member | corrected member |
|---|---|---|---|---|---|---|
| 05_Our_First_Agent_with_LangGraph/backend/rag/retrieve.py:160-166 | A cut document keeps `remaining - 50` characters of content but also adds its header, which can be longer than 50 | One document with 200 characters of content and a 60-character filename, max_chars 150: the context is 177 characters | The context never exceeds max_chars | high, not executed | Retrieve.PackOverflowsAsWritten | Retrieve.PackWithinBudget |
| 05_Our_First_Agent_with_LangGraph/backend/rag/retrieve.py:151-175 | The budget test counts each part's own length, but `"\n".join` adds a newline between parts | Two documents with content "a" and filename "f", max_chars 32: the parts total 32 characters and the context is 33 | The context never exceeds max_chars | high, not executed | Retrieve.SeparatorsOverflowAsWritten | Retrieve.PackWithinBudget |
| 05_Our_First_Agent_with_LangGraph/backend/tools/chess_tools.py:111-116 | `game_data.get(...)` is called on the parsed python-chess Game, which has no `get` | Any PGN that parses | A parsed game is analysed and its lines returned | medium, not executed (depends on python-chess, which is not part of this model) | ChessTools.ParsedPgnNeverAnalysed | ChessTools.AnalyzePgnReports |
