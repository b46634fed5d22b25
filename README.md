# Smart Tutor backend: verified model of its decision logic

The Smart Tutor is a retrieval-augmented study assistant. It indexes a PDF of
notes in a vector store, gives a language-model agent a "PDF_Search" tool (and a
Tavily web-search tool when that package imports and its tool can be
constructed), and serves the agent
over an HTTP `/chat` endpoint. Nearly all of it is glue around LangChain,
Chroma, Groq and FastAPI. This project models the three pieces of decision logic
the repository does itself, over datatypes that stand in for the library objects:

- **Knowledge base build-or-load** (`Engine`, `core/engine.py`). A non-empty
  `./chroma_db` directory is loaded without ingesting anything. Otherwise a
  missing PDF raises `FileNotFoundError`, and an existing PDF is built into a new
  store persisted to `./chroma_db`. The filesystem is an input value, and the
  store records whether it was loaded or built.
- **Tools** (`Tools`, `core/tools.py`). `pdf_search` is a method with the
  source's collect-then-slice loop. It is proved equal to a case-by-case
  reference (`SearchReply`): an error text, the fixed "nothing found" text, or the
  first one or two documents joined by a blank line. `create_tutor_tools` always
  puts `PDF_Search` first and adds web search only when the Tavily import and the construction of its tool both succeeded.
- **Chat handler** (`Api`, `api.py`). The agent is a function from the payload it
  is sent to what it returns or raises. `InvokeWithFallback` is the three-step
  `try` chain. `LastReply` is the backward scan over `messages`, proved equal to
  the recursive `MessagesReply`. `ExtractReply` gives the messages, then `output`,
  then `str` precedence. `ErrorReply` maps exceptions to replies. `Chat` puts
  these together and is total: every failure path yields a reply string.
  `Root`/`Health` report the tool count, and `LoadTools` is the start-up step
  that leaves the tool list empty when the knowledge base cannot be built or loaded.

Python's `in` on strings, `str.join` and `str(int)` are modelled in `Text`
(`Contains`, `Join`, `IntToDecimal`). `Base` holds `Option` and `Result`.

Behaviours of the code worth knowing:
- The backward scan stops at any AI message, even an empty one. It also stops at
  any non-human message with non-empty content, such as a tool message. It is not
  limited to assistant messages.
- `pdf_search` keeps two documents, although the comment beside the slice
  says three.
- A regular file at `./chroma_db` makes `os.listdir` raise `NotADirectoryError`.
  The model keeps that as the error `StorageNotADirectory`.

## Model

| member | source | states |
|---|---|---|
| Text.ContainsAtSomePosition | api.py:156 | Python's substring test `sub in s` holds exactly when some position of `s` starts a copy of `sub` (both directions) |
| Text.ContainsInfix | api.py:156 | a text with `sub` anywhere inside it passes the substring test |
| Text.JoinAppend | core/tools.py:40 | `sep.join` of two non-empty lists in sequence is the join of each with exactly one separator between them |
| Text.IntToDecimalRoundTrip | api.py:91 | `str` of an integer loses nothing: reading the decimal text back gives the same integer |
| Text.IntToDecimalInjective | api.py:91 | distinct integer messages reach the agent as distinct strings |
| Engine.GetVectorstore | core/engine.py:8-43 | the store is loaded exactly on a cache hit (both directions); every store lives in "./chroma_db"; a build reads the given, existing PDF; the error is `NotADirectoryError` exactly when "./chroma_db" is a regular file (both directions); a `FileNotFoundError` names the given PDF, which does not exist (see also StorageFileFailsFirst, BuildReadsPdfIntoStorage, MissingPdfFails) |
| Engine.NotFoundMessage | core/engine.py:20-21 | the `FileNotFoundError` text names the missing PDF path |
| Engine.After | core/engine.py:9-40 | on the modelled paths (the storage directory and the PDF), only a build changes anything: any other outcome leaves them as they were; a build leaves `./chroma_db` a cache hit, and every other path keeps its existence and its contents |
| Engine.CacheHitLoads | core/engine.py:15-17 | a non-empty storage directory is loaded with no ingestion and no change to the modelled paths, even when the PDF does not exist |
| Engine.StorageFileFailsFirst | core/engine.py:15 | a regular file at "./chroma_db" gives `NotADirectoryError` from the listing before the PDF is checked, whether or not the PDF exists, and the modelled paths stay as they were |
| Engine.EmptyStorageIsMiss | core/engine.py:15-40 | an existing but empty storage directory is a miss, so the PDF is built from, or is reported missing |
| Engine.MissingPdfFails | core/engine.py:20-21 | on a miss with no PDF, the result is `FileNotFoundError` for that path, its text is the "not found in project directory" message naming the path, and nothing is written |
| Engine.BuildReadsPdfIntoStorage | core/engine.py:9-40 | a build happens exactly when the storage directory is absent or empty and the PDF exists (both directions); it reads that PDF and persists to "./chroma_db" |
| Engine.SecondCallLoads | core/engine.py:9-40 | after any successful call, every later call loads the persisted store whatever PDF it names, so the cache is never rebuilt |
| Tools.PdfSearch | core/tools.py:20-42 | the loop that collects each document's text, slices two and joins them returns the reference reply: the error text on failure, the fixed text for no documents, else the first one or two texts separated by a blank line |
| Tools.OnlyFirstTwoShown | core/tools.py:35-40 | retrievals that agree on their first two documents give the same reply: later documents never appear |
| Tools.SingleDocAlone | core/tools.py:40 | one retrieved document gives its text alone, without a separator |
| Tools.FirstDocLeads | core/tools.py:35-40 | a reply with documents begins with the first document's text, so retrieval order is kept |
| Tools.CreateTutorTools | core/tools.py:44-55 | the tool list always starts with `PDF_Search`; it has two entries, the second being web search, exactly when `HAS_TAVILY` holds, and one otherwise |
| Api.LastQualifying | api.py:129-133 | the scan finds the last message that is an AI message or a non-human message with non-empty content; no later message qualifies, and none qualifies when it finds nothing |
| Api.LastReply | api.py:129-140 | the backward loop with `break` and `else` returns exactly `MessagesReply(ms)` |
| Api.ReplyIsLastQualifying | api.py:129-133 | when some message qualifies, the reply is the last qualifying message's content, and an AI message's content is taken even when empty |
| Api.NoQualifyingFallsBack | api.py:134-140 | when no message qualifies, the reply is the last message's content (or its `str` when it has none), and an empty list gives "No messages in response" |
| Api.TrailingUnqualifiedIgnored | api.py:129-133 | a human turn, or a non-AI message with empty or no content, appended after a qualifying message does not change the reply |
| Api.ExtractReply | api.py:121-146 | `None` gives the fixed "No response from agent" text; a messages list, when present, decides the reply through `MessagesReply`; `output` is used only without messages; otherwise the response's `str` (see also MessagesTakePrecedence, OutputThenStr) |
| Api.MessagesTakePrecedence | api.py:125-142 | with a `messages` key, the `output` field and the rest of the dict make no difference to the reply |
| Api.OutputThenStr | api.py:122-146 | `None` gives "No response from agent"; without `messages` the `output` field is the reply; a dict with neither key, or a non-dict, gives its `str` |
| Api.ExtractionExamples | api.py:122-146 | worked cases: a user then an assistant turn gives the assistant's text; a lone user turn is echoed; `{"output": "x"}` gives "x"; an empty AI message is chosen; an empty tool message is skipped |
| Api.ErrorReply | api.py:150-158 | the reply is the rate-limit text exactly when "429" occurs at some position of the exception text (both directions); every other reply is "Error: <text>" followed by the note to check the backend logs |
| Api.RateLimitRecognised | api.py:156-157 | any error text with "429" anywhere in it yields the rate-limit reply |
| Api.GenericErrorDistinct | api.py:156-158 | the generic error reply starts with "Error: " followed by the exception text and never equals the rate-limit reply |
| Api.Coerce | api.py:91 | a string message is passed unchanged; an integer message becomes text from which the same integer is read back |
| Api.NumberCoercion | api.py:81-91 | the integer message 42 reaches the agent as "42", and every integer can be read back from its coerced text |
| Api.InvokeWithFallback | api.py:96-119 | payloads are tried in the fixed order human message list, tuple list, input dict; each is tried only after the previous one raised; the outcome is the last attempt's; an exception escapes only when all three raised |
| Api.Chat | api.py:84-158 | without an agent the reply is the fixed "Agent not initialized" text; when the first (human-message) attempt is answered, the reply is extracted from that response; when all three attempts raise, the reply maps the third exception (see also FirstAnswerDecides, AllAttemptsRaise) |
| Api.UninitialisedAgentReply | api.py:86-87 | without an agent the reply is the fixed "Agent not initialized" text, whatever the message |
| Api.FirstAttemptIsHumanMessage | api.py:91-104 | the first payload sent is the coerced message as a human message; for 42 it carries "42" |
| Api.FirstAnswerDecides | api.py:97-148 | the first payload in the fallback order that the agent answers decides the reply, through the extraction rules |
| Api.AllAttemptsRaise | api.py:113-158 | when all three attempts raise, the reply maps the third exception, and a "429" in it gives the rate-limit reply |
| Api.Root | api.py:66-73 | `/` reports status "ok", `tools_count` equal to the number of tools, and whether the agent exists |
| Api.Health | api.py:76-78 | `/health` reports status "ok", `tools_count` equal to the number of tools, and whether the agent exists |
| Api.StatusReportsState | api.py:65-87 | `/` and `/health` report the same tool count, equal to the number of tools, and whether the agent exists; when they report no agent, every chat gets the fixed reply |
| Api.LoadTools | api.py:40-49 | the tool list is empty exactly when building or loading the knowledge base from "my_notes.pdf" fails; otherwise it is exactly `PDF_Search`, followed by the web-search tool when `HAS_TAVILY` holds |

## Left out

- `main.py` (the command-line loop, its streaming prints and its `quiz` branch), `modules/evaluation.py`, `utils.py`, `check_models.py` and `tutor-frontend/src/App.jsx` are not part of this model. They are I/O and library calls with no decision logic of their own.
- The language model, embeddings, PDF loading, text splitting, Chroma's similarity search and persistence format, the agent's tool-selection loop and its memory are collaborators. The agent and the retriever are function parameters. A build is recorded as `Built`, and its write to disk as one entry in `./chroma_db`.
- `asyncio.to_thread`, the shared "student_1" thread id, FastAPI routing, CORS and the print/traceback logging are concurrency, framework and I/O concerns.
- Agent construction (`create_agent`) is a collaborator. Its success or failure is the `Option<Agent>` given to `Chat`, `Root` and `Health`.
- Exceptions that could be raised inside reply extraction are not modelled. Examples are a `messages` value that is not a list, and a `str` that raises. The model takes every response shape to be well formed.
- Message `content` and the `output` field are modelled as strings. Multimodal list contents and non-string `output` values are not modelled.
- Tools.PdfSearch: failures while reading a document (`str(doc)` raising) are not modelled. Only a failed retrieval produces the error text.
- Engine.After: only the storage directory and the PDF are modelled paths. Other writes are not recorded: the `HuggingFaceEmbeddings` constructor runs on every call and may download its model into the Hugging Face cache, and the vector store creates files inside `./chroma_db` on a build. "Unchanged" in `After`, `CacheHitLoads` and `MissingPdfFails` refers to the modelled paths only.
- Engine.GetVectorstore: the PDF is checked only for existence, as the code does. Loader failures on a directory or a corrupt file belong to the loader collaborator.
- Engine.GetVectorstore: exceptions from the collaborators it calls are not modelled. These are the `HuggingFaceEmbeddings` constructor (run on every call, cache hits included), the `Chroma` constructor that loads the store, and the PDF loader, splitter and `Chroma.from_documents` on a build. The model fails only with a missing PDF or a storage path that is a regular file, so `CacheHitLoads` and `LoadTools` assume these collaborators succeed. In the code, any of them raising also leaves the tool list empty.
- Tools.CreateTutorTools: `hasTavily` stands for `HAS_TAVILY`, which holds when the Tavily import and the construction of its search tool both succeed. Only `ImportError` is caught. Any other exception from the constructor escapes the import of `core/tools.py`, which `api.py` imports outside any `try`, so the server does not start. That start-up abort is module-level initialisation and is not modelled.
- Api.LoadTools: an exception from `vectorstore.as_retriever()` inside `create_tutor_tools` is not modelled. Only knowledge-base failures empty the tool list.
- The web-search tool's name is set by the Tavily library and is not modelled. The tool is identified by its configuration: two results and its description.
