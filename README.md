# A verified model of the self-learning IT-support Slack bot

The bot answers Slack messages with a Bedrock chat model. The model may call
tools: a web search, a URL fetch, and writes and reads of a pgvector
knowledge base. This project models the bot's core in Dafny and proves
properties of it:

- `blocks.dfy` (module `Blocks`): the values exchanged with the Converse API.
  These are JSON values, content blocks (text, image, document, json,
  toolUse, toolResult) and messages.
- `db.dfy` (module `Db`): the knowledge store. The class `KnowledgeStore`
  holds the committed rows of `knowledgebase` and the free-connection count
  of the bounded pool.
  - `CreateRecord` models `create_db_record`.
  - `GetRecordsByEmbedding` models `get_db_records_by_embedding`.
  - Both follow the pool's acquire, `try` and `finally` release, and the
    failure of each step.
  - `SelectNearest` is the `ORDER BY distance LIMIT n` query, written as a
    loop.
- `tools.dfy` (module `Tools`):
  - the content-type classification of `retreive_url`, with `str.split`
    modelled and proved;
  - the tool catalogue and the handler table;
  - binding a handler's single keyword argument;
  - the JSON wrapping of the handlers.
- `llm_utils.dfy` (module `LlmUtils`):
  - `construct_converse_messages`, as two nested loops;
  - `message_contains_document`;
  - the request of each round: model, temperature, tools and tool choice;
  - the canned reply for an output without a message.
- `lambda_function.dfy` (module `LambdaFunction`):
  - `lambda_handler`'s retry gate;
  - `handle_keywords`. This is the method `HandleKeywords`, which runs
    rounds of completion calls. In each round it announces and runs every
    requested tool and appends the tool results, until a response asks for
    no tool.

External services are parameters. The thread loader, the Converse call, the
tool handlers, the embedding service, the UTF-8 decoder and the vector
distance each enter as a function value. What the handler says is collected
in an outbox of `Reply` values.

`HandleKeywords` is proved equal to `HandleKeywordsRun`, a function built
from `RoundStep` (one round) and `Rounds` (the loop). Lemmas then state what
a run promises:

- every round but the last was a tool round;
- tool use is forced on the first request only;
- each tool round appends the response and one user message, with one
  `toolResult` per `toolUse`, in order;
- every notice is said in the thread;
- a run that stops ends with the answer or with the single error reply.

Unregistered tool names get no special handling.
`TOOL_MAPPING[tool_name]` (function/lambda_function.py:61) sits outside the
inner `try`. An unknown name therefore raises `KeyError`, and the outer bare
`except` ends the whole run with the error reply. Because of that, the
`'No tool use processed'` branch can never be taken. The model follows this:

- an unknown name ends the run as `Failed(UnknownTool(name))`, after the
  notices of the registered tools before it;
- the unreachable branch is an `assert false` in `TakeResponse`.

## Model

| member | source | states |
|---|---|---|
| Db.KnowledgeStore.constructor | function/db.py:9-16 | A new pool (bounds 1 and 8) has all 8 connections free. The store holds the rows the table already has, with distinct ids. |
| Db.KnowledgeStore.GetConn | function/db.py:21 | `getconn` fails with "connection pool exhausted" when no connection is free, fails when connecting raises, and otherwise takes exactly one connection. |
| Db.KnowledgeStore.PutConn | function/db.py:32 | Handing a connection back frees exactly one. |
| Db.KnowledgeStore.CreateRecord | function/db.py:19-33 | Succeeds iff a connection is free, no step raises and the id is new. On success it returns the id drawn before the pool is touched, and the table gains exactly that record. On failure the table is unchanged. The pool count is restored on every path through the `try`; a failing `cursor()` leaks the connection. |
| Db.KnowledgeStore.GetRecordsByEmbedding | function/db.py:36-59 | Succeeds iff a connection is free and neither cursor nor execute raises. Returns at most `limit` rows: the nearest records in ascending distance, reduced to id and content in fetch order. The table is unchanged, and the pool is restored as for inserts. |
| Db.NearestUnpicked | function/db.py:40-47 | Returns a position not yet picked whose distance is no greater than that of any other unpicked position. |
| Db.SelectNearest | function/db.py:40-47 | Picks min(limit, table size) distinct positions in ascending distance, and no record left out is nearer than one picked. |
| Db.ZeroDistanceComesFirst | function/db.py:40-47 | A query with the vector of the only record at distance zero returns that record first. |
| Db.Project | function/db.py:53-59 | One row per fetched record, in fetch order, keeping only id and content. |
| Tools.SplitJoin | function/tools.py:40-44 | `str.split` pieces joined back give the string, and no piece holds the separator. |
| Tools.SplitWithoutSeparator | function/tools.py:40-44 | A string without the separator splits into itself alone. |
| Tools.SplitAtFirst | function/tools.py:40-44 | Splitting at the first separator gives the prefix, then the pieces of the rest. |
| Tools.ContentTypeIsFirstField | function/tools.py:40 | The content type is the prefix of the header up to its first ';'. It holds no ';' and is followed by one unless it is the whole header. |
| Tools.ParametersIgnored | function/tools.py:40 | Parameters after ';' never change the result of `retreive_url`. |
| Tools.TypeSegments | function/tools.py:41-44 | The primary type is the part before the first '/'. The secondary type is the part between the first and second '/', or '' when there is no '/'. |
| Tools.ClassifyResponse | function/tools.py:40-89 | An image iff the primary type is `image`; the format is the secondary type when supported, else jpeg. A document named "document" iff the type is a `text/` or `application/` type other than `application/json`; the format is the secondary type when supported, else txt. Images and documents keep the body's bytes. Otherwise the decoded body as text, behind "Content-Type: <type>" except for `application/json`. It fails iff it must decode and decoding fails, and the decoder's error is passed on. |
| Tools.JsonIsText | function/tools.py:61-64 | `application/json…` yields the decoded body as text, never a document. |
| Tools.MissingHeaderIsText | function/tools.py:40-89 | Without a Content-Type header the body comes back behind an empty "Content-Type: " line. |
| Tools.RegistryNamesAgree | function/tools.py:110-182 | The handler table's keys are exactly the catalogue names. No name appears twice, and each name is bound to the handler of that name. |
| Tools.RegistrySchemasMatchHandlers | function/tools.py:110-182 | Each catalogue schema is an object requiring exactly one string property: the keyword parameter of the handler bound to that name. |
| Tools.SchemaDeclaresItsParameter | function/tools.py:114-124 | The schema shape used in the catalogue declares its one parameter as a required string. |
| Tools.CatalogueFollowsSpecs | function/tools.py:110-182 | Entry i of the handler-order catalogue is the spec named after that handler, and the table binds the name back to it. |
| Tools.BindArgument | function/lambda_function.py:69 | `tool_func(**tool_input)` binds iff the input's keys are exactly the handler's parameter, and passes that value through. Otherwise it raises. |
| Tools.SearchWebResult | function/tools.py:27-33 | A reader of the result finds the search hits, unchanged, under `results` and nothing under any other key. |
| Tools.RowsJson | function/tools.py:101-107 | One `{id, content}` object per row, in order. |
| Tools.SnapshotKnowledgeTool | function/tools.py:92-98 | Succeeds iff the embedding succeeds and the insert does (a free connection, no step raising, a new id). An embedding failure is passed on and leaves the store unchanged. On success the result is `{'json': {'knowledge_id': id}}` with the id the store drew, and the table gained the content with its embedding. The pool count is restored except for a leaked connection. |
| Tools.SearchKnowledgeBaseTool | function/tools.py:101-107 | Succeeds iff the embedding succeeds and the query does. It returns `{'json': {'records': …}}` holding the store's nearest records (limit 5) unchanged. An embedding failure is passed on. The table is unchanged, and the pool count is restored except for a leaked connection. |
| LlmUtils.ConstructConverseMessages | function/llm_utils.py:70-113 | The nested loops build exactly the message `ConverseMessage` describes. |
| LlmUtils.AppendAttachmentBlocks | function/llm_utils.py:77-101 | The inner loop appends one block per attachment, in order. |
| LlmUtils.ConverseMessageShape | function/llm_utils.py:70-113 | The built message has role user, the header first, the footer last, and 2 + Σ(\|attachments\| + 1) blocks. |
| LlmUtils.TurnLayout | function/llm_utils.py:74-104 | Each turn occupies consecutive blocks: one per attachment in order, then '<sender>: <message>'. |
| LlmUtils.AttachmentClassification | function/llm_utils.py:26-42 | An attachment is an image iff its file type is in the image table (checked first), sent in the format that table maps it to (jpg→jpeg, webm→webp). It is a document iff the type is only in the document table, sent in the mapped format (text→txt, markdown→md) and named '<format> from <sender>'. The bytes are kept. Anything else is the text fallback with title and file type. |
| LlmUtils.AnyDocument | function/llm_utils.py:117-121 | True iff some block is a document. |
| LlmUtils.AnyToolResultDocument | function/llm_utils.py:122-130 | True iff some tool result's content holds a document. |
| LlmUtils.MessageContainsDocument | function/llm_utils.py:116-132 | True iff a document is at the top level or directly inside a tool result's content. |
| LlmUtils.AnyMessageContainsDocument | function/llm_utils.py:138 | True iff some message of the conversation contains a document. |
| LlmUtils.BuildRequestFacts | function/llm_utils.py:135-165 | The model is Sonnet 3 (`anthropic.claude-3-sonnet-20240229-v1:0`) iff a document is anywhere in the conversation, else Sonnet 3.5. The conversation is sent unchanged at temperature 0.1 with the four tools in catalogue order. Tool choice is `any` iff forced. |
| LlmUtils.CompletionOfCases | function/llm_utils.py:166-174 | The output message comes back unchanged. A missing message becomes the one-block canned assistant reply. Only an exception is a failure, and it keeps its message. |
| LambdaFunction.ThreadRepliesShareTarget | function/lambda_function.py:22-25 | A thread's first message and every reply in it are answered in that same thread, and a message with a timestamp is never answered to an empty one. |
| LambdaFunction.ToolUsesExactly | function/lambda_function.py:52 | The filter keeps exactly the tool-use blocks, so a response is a tool round iff some block is a tool use. |
| LambdaFunction.KnownPrefix | function/lambda_function.py:55-61 | Counts the leading tool uses whose names are registered; the use after them, if any, is not registered. |
| LambdaFunction.RoundResultsPairing | function/lambda_function.py:55-88 | Result i is a `toolResult` with the id of tool use i and one block. Its status is success iff the handler returned, and the block is the handler's result or 'Error: <e>'. |
| LambdaFunction.Notices | function/lambda_function.py:63-67 | One notice per tool use, naming the tool and its input, in the thread, in order. |
| LambdaFunction.ProcessToolUses | function/lambda_function.py:54-91 | The inner loop stops at the first unregistered tool iff there is one, and reports its name. It has announced exactly the tools before it. With no unknown tool it yields exactly the paired results. |
| LambdaFunction.AnswerOf | function/lambda_function.py:102-104 | A response without tool uses answers with its first block's text. It fails if the content is empty or the first block is not text. |
| LambdaFunction.ResponseStep | function/lambda_function.py:52-98 | A response either stops the run (answer or error, at most one message appended) or appends exactly two messages. Everything it says goes to the thread. |
| LambdaFunction.RoundStep | function/lambda_function.py:49-98 | One round either stops the run (answer or error, at most one message appended) or appends exactly two messages. Everything it says goes to the thread. |
| LambdaFunction.Rounds | function/lambda_function.py:46-100 | The loop only ever extends the conversation, the requests and the outbox. Everything added goes to the thread. It ends answered, failed, or after exactly `fuel` requests. |
| LambdaFunction.HandleKeywordsRun | function/lambda_function.py:21-119 | A bot's message is ignored with nothing loaded, asked or said. A load failure says nothing. Otherwise the conversation starts with the built message, and every reply goes to the thread. |
| LambdaFunction.TakeRound | function/lambda_function.py:49-100 | One pass of the loop body does exactly what `RoundStep` describes. |
| LambdaFunction.TakeResponse | function/lambda_function.py:52-98 | Handling a response does exactly what `ResponseStep` describes. |
| LambdaFunction.HandleKeywords | function/lambda_function.py:21-119 | The handler's outcome, replies, conversation and requests are exactly those of `HandleKeywordsRun`. |
| LambdaFunction.StopsUpstream | function/lambda_function.py:113-119 | A Converse call that raises ends the run with one error reply after the earlier notices. |
| LambdaFunction.StopsAnswered | function/lambda_function.py:97-112 | A response without tool uses ends the run with its answer as the last reply. |
| LambdaFunction.UnknownStopped | function/lambda_function.py:55-119 | An unregistered tool ends the run with its name, after the response is appended and the tools before it are announced. |
| LambdaFunction.StopsUnknown | function/lambda_function.py:55-119 | As above, from a loop state; the earlier tool rounds are kept. |
| LambdaFunction.StepStops | function/lambda_function.py:40-119 | Every way a round can stop leaves the run in the stopped shape. |
| LambdaFunction.StepContinues | function/lambda_function.py:52-100 | A tool round leads to the next loop state: two more messages, one more request, and the round's notices. |
| LambdaFunction.NextRound | function/lambda_function.py:93-96 | The response followed by its tool results forms a tool round, and the earlier rounds are unchanged. |
| LambdaFunction.RoundsFacts | function/lambda_function.py:46-119 | From any loop state, every round but the last is a tool round. A stopped run ends as `Stopped` says, and an unfinished one is in the loop state after `fuel` rounds. |
| LambdaFunction.ForcedOnFirstOnly | function/lambda_function.py:46-49 | Tool use is forced on the first request and on no other. |
| LambdaFunction.HandleKeywordsFacts | function/lambda_function.py:40-119 | Every run that reaches the loop has the shape above, with tool use forced on the first request only. |
| LambdaFunction.FallbackAnswers | function/lambda_function.py:97-112 | A round whose Converse output has no message ends the run answered with the canned text. That text is said in the thread, and nothing is appended. |
| LambdaFunction.LambdaHandler | function/lambda_function.py:122-137 | `{'ok': False}` iff the event has no headers. An acknowledgement (200, 'ok') iff either retry-number header is set and non-empty. Dispatch to Slack iff neither is. |
| LambdaFunction.RetryHeaderSpellings | function/lambda_function.py:125-128 | Setting any header other than the two spellings never changes whether an event is a retry; this covers other capitalisations. Either spelling with an empty value counts as absent. |

## Left out

- The Converse call, the Slack thread loader, the Slack request handler, the embedding service, the DuckDuckGo search, the HTTP GET and its random User-Agent are network calls. Each is a parameter, or the point where the model hands over.
- `slack_utils` is not part of this model. Its conversation list is the loop's input. A load that raises (outside the handler's `try`) is `LoadFailed`.
- `rag_utils` is folded into the two knowledge handlers as "embed, then store".
- LlmUtils.Request does not store the system prompt, which is the same on every call. It names each catalogue entry by its handler, not by the spec itself; `Tools.CatalogueFollowsSpecs` relates the two.
- Logging, `jsondumps` and the traceback text are not modelled. The error reply carries the `RunError` rather than the traceback. A tool notice carries the tool name and input rather than the formatted sentence.
- LambdaFunction.HandleKeywords runs at most `fuel` tool rounds and then reports `Unfinished`. The `while True` loop of the source has no bound, and its termination is not claimed.
- LambdaFunction.HandleKeywords records what is said and what is asked. It does not record the interleaving of `say` calls with handler calls, or effects of handlers on the store, because the tool handlers inside the loop are an opaque `runTool` parameter. `Tools.SnapshotKnowledgeTool` and `Tools.SearchKnowledgeBaseTool` model those handlers' store effects separately.
- Tools.BindArgument binds the argument by name only; the value's JSON type is not checked. The error text of Python's `TypeError` is approximate.
- The event is assumed to carry `channel` and `ts`; a missing key is not modelled.
- LambdaFunction.HandleKeywords treats `say` as unable to fail: each reply is appended to the outbox. In the source, a notice or answer whose `say` raises inside the `try` (function/lambda_function.py:63-67,108-112) leads to the error reply instead, and this path is not modelled.
- Db.KnowledgeStore models the pool as a free-connection counter, sequentially. It does not model psycopg2's idle-connection cache (the minimum of 1, so whether a call gets a stale connection is the `fault` parameter), rollback on `putconn`, or concurrent Lambda invocations.
- Db.SelectNearest uses an uninterpreted non-negative distance in place of pgvector's floating-point `<->`. SQL semantics and the embedding's dimension and serialisation are not modelled. `IsNearest` allows ties to be broken either way.
- UTF-8 decoding is an abstract function, and JSON numbers are integers.
