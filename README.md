# Hierarchical agent teams: stream framing and star-shaped team graphs

This project models the visible core of a hierarchical multi-agent service. A top-level
supervisor delegates a question to a research team or a paper-writing team. Each team's
supervisor delegates in turn to worker agents. The answer is streamed to an HTTP client as
Server-Sent-Events lines.

The language model, the agents' think/act loops, the supervisors' routing and the graph execution
engine are library code that is not part of this model. They appear as opaque parameters:

- an agent or compiled team graph is an `Agent`, a function from the messages it is given to the
  messages it ends with;
- the orchestrator's stream is a function from the initial messages and the recursion limit to a
  `MessageStream`: the events it yields, then optionally the message of the exception it raises;
- `request.is_disconnected()` is a function from poll number to `Result<bool, string>`: the poll
  answers whether the client has gone, or raises with a message;
- a routing decision is a `Decision`, either a roster member or FINISH.

Modules, one per source file plus shared vocabulary:

- `Wrappers` (`wrappers.dfy`): `Option` and `Result`.
- `Text` (`text.dfy`): Python's `str.strip()` and `str.startswith()`.
- `Graphs` (`graphs.dfy`):
  - `Message` and `Command`;
  - `Report`, the result wrapping shared by every worker and team-call node;
  - graphs as maps from node key to node kind;
  - the `StateGraph` builder class, whose `AddNode`/`AddEdge` update the builder in place;
  - `IsStar`, the topology every team graph has.
- `ResearchTeam`, `PaperWritingTeam`, `Orchestrator`: the node functions and the graph assembly
  of `backend/research_team.py`, `backend/paper_writing_team.py` and `backend/graph.py`.
- `Api`: `answer_generator` as the method `AnswerGenerator` and `event_stream` as the method
  `EventStream`. Both append to their output step by step in loops. `Answer` is the reference
  definition of the generator's output, and the lemmas about it state the framing guarantees.

A message whose `content` is `None` stands for a message object without content. A worker whose
agent ends with such a message fails with `MissingContent` rather than inventing a default.

The framing guarantees of the generator's output are proved under a sufficient condition: no
non-empty chunk content emitted before the stream stops ends with a line break. Under it:

- the DONE line occurs exactly once, and last;
- an error line can only be the line directly before DONE, and it is there exactly when the
  stream failed.

Some condition is needed, because the source does not escape chunk content. A chunk whose
content is `"[DONE]\n"` produces a line identical to the terminator (`ForgedTerminator`), and
forged error lines arise the same way. For the DONE line alone the exact condition is proved
(`DoneOnlyLast`): DONE occurs only last exactly when no chunk emitted before the stream stops
has the content `"[DONE]\n"`.

What `event_stream` sends can differ from the generator's output. Once a poll of the client
says it has gone, the rest is dropped, DONE included. Once a poll raises, the rest is replaced by
one error line, so a client can receive two error lines and no DONE (`SecondErrorLine`).

## Model

| member | source | states |
|---|---|---|
| `Text.StripStart` | backend/api.py:69 | the index where the stripped text starts: everything skipped is whitespace, and the character there (if any) is not |
| `Text.StripEnd` | backend/api.py:69 | the index where the stripped text ends: everything cut from the end is whitespace, and the character before it (if any, and not before the start) is not |
| `Text.Strip` | backend/api.py:69 | `question.strip()` is a contiguous slice of the question, whitespace (Python's `isspace` set) on both sides of it, with no whitespace at either end of the slice |
| `Graphs.Report` | backend/research_team.py:28-37 | the wrapped result: fails with IndexError on an empty message list, fails when the last message has no content, and otherwise returns exactly one human message carrying the last content, named as given, with the given `goto` |
| `Graphs.ReportUsesOnlyLast` | backend/research_team.py:28-34 | the sub-agent's intermediate messages never reach the update: prefixing any messages before the final one leaves the command unchanged |
| `Graphs.AllowedDecisionReturnsToSupervisor` | backend/research_team.py:58-68 | in a star graph, every member the supervisor's roster allows is a worker node of the graph, and its command names that member and routes back to the supervisor |
| `Graphs.StarOfTwo` | backend/research_team.py:58-69 | a supervisor whose roster lists two distinct worker keys, those two workers reporting back to it under their own keys, and the single edge from START to the supervisor form a star |
| `Graphs.StarOfThree` | backend/paper_writing_team.py:95-109 | the same for a roster of three distinct worker keys |
| `Graphs.StateGraph.constructor` | backend/research_team.py:63 | a new builder has no nodes and no edges |
| `Graphs.StateGraph.AddNode` | backend/research_team.py:64-66 | registers the node under its key and leaves the edges alone; a repeated or reserved key is refused and changes nothing |
| `Graphs.StateGraph.AddEdge` | backend/research_team.py:68 | adds the edge and leaves the nodes alone; an edge leaving END or entering START is refused |
| `ResearchTeam.SearchNode` | backend/research_team.py:25-37 | the search agent runs on the full state; the command holds exactly one human message named `search` whose content is the agent's last content, empty content included, and routes to `research_team_supervisor`; an empty result or a last message without content fails |
| `ResearchTeam.WebScraperNode` | backend/research_team.py:43-55 | the same for the scraping agent, named `web_scraper`, routed to `research_team_supervisor` |
| `ResearchTeam.BuildResearchGraph` | backend/research_team.py:58-69 | the assembled graph is a star around `research_team_supervisor`: the only edge is START to the supervisor; the roster `[search, web_scraper]` is exactly the set of worker keys; each key runs its node function, whose message name equals the key and whose `goto` is the supervisor |
| `PaperWritingTeam.DocWritingNode` | backend/paper_writing_team.py:33-45 | one human message named `doc_writer` carrying the agent's last content, routed to `doc_writing_team_supervisor`; the same failures |
| `PaperWritingTeam.NoteTakingNode` | backend/paper_writing_team.py:58-70 | one human message named `note_taker` carrying the agent's last content, routed to `doc_writing_team_supervisor`; the same failures |
| `PaperWritingTeam.ChartGeneratingNode` | backend/paper_writing_team.py:78-92 | one human message named `chart_generator` carrying the agent's last content, routed to `doc_writing_team_supervisor`; the same failures |
| `PaperWritingTeam.BuildPaperWritingGraph` | backend/paper_writing_team.py:95-109 | a star around `doc_writing_team_supervisor`: the only edge is START to it; the roster `[doc_writer, note_taker, chart_generator]` equals the worker keys; each worker's message name is its key and all three return to the supervisor |
| `Orchestrator.CallResearchTeam` | backend/graph.py:27-38 | an empty state fails with IndexError before the team runs; otherwise the research graph receives only the last state message, and the command holds exactly one human message named `research_team` with the graph's last content, routed to `supervisor` |
| `Orchestrator.CallPaperWritingTeam` | backend/graph.py:41-52 | the same for the paper-writing graph, named `writing_team`, routed to `supervisor` |
| `Orchestrator.TeamCallsSeeOnlyLatest` | backend/graph.py:28 | two states ending in the same message give the same command: the history before the latest message is invisible to the team |
| `Orchestrator.TeamCallsRunTeamOnce` | backend/graph.py:42 | the command depends on the team graph only through its answer on the one input made of the latest message |
| `Orchestrator.BuildSuperGraph` | backend/graph.py:56-62 | a star around `supervisor`: the only edge is START to it; the roster `[research_team, writing_team]` (line 25) equals the team-call keys; each team-call node's message name is its key and it returns to `supervisor` |
| `Api.ChunkLinesAppend` | backend/api.py:84-89 | chunk lines preserve stream order: the lines of a concatenation are the lines of each part, one after the other |
| `Api.ChunkLinesOfItem` | backend/api.py:85-89 | an `AIMessageChunk` with non-empty content yields exactly one `data: <content>\n` line; an empty chunk, a metadata dict or any other object yields nothing |
| `Api.NamespaceFilterIgnored` | backend/api.py:81-83 | the namespace lookup succeeds exactly when the second element is a metadata dict holding `checkpoint_ns`; when it does, the output is the chunk lines whatever the namespace, because the guard is `True or ...` |
| `Api.MissingNamespaceAborts` | backend/api.py:81 | metadata without `checkpoint_ns` ends the stream with the KeyError line `data: [Error] 'checkpoint_ns'` and then DONE |
| `Api.AnswerEndsWithDone` | backend/api.py:91-93 | whether the stream completes or raises, the last line is `data: [DONE]\n\n` |
| `Api.GoodPrefix` | backend/api.py:71-81 | the number of leading events whose namespace lookup succeeds: every event before it succeeds, and the event at it fails |
| `Api.AnswerShape` | backend/api.py:71-93 | the whole output is the chunk lines of the events before the first failure, in stream order, then one error line exactly when the stream failed (a malformed event or an exception raised by the orchestrator), then DONE |
| `Api.CompletedStreamLines` | backend/api.py:84-89 | a stream without failures yields exactly the chunk lines of all its events, then DONE |
| `Api.TerminalLines` | backend/api.py:89-93 | when no chunk emitted before the stream stops ends with a line break, DONE is the last line and occurs nowhere else, an error line can only be the second-to-last line, and it is there exactly when the stream failed |
| `Api.DataLineIsDone` | backend/api.py:89 | a chunk line equals the DONE line exactly when the chunk's content is `"[DONE]\n"` |
| `Api.DoneInChunkLines` | backend/api.py:84-89 | an event's chunk lines contain the DONE line exactly when the event holds a chunk with content `"[DONE]\n"` |
| `Api.DoneOnlyLast` | backend/api.py:71-93 | DONE occurs nowhere but last exactly when no chunk emitted before the stream stops has the content `"[DONE]\n"` |
| `Api.ForgedTerminator` | backend/api.py:89 | a chunk with content `"[DONE]\n"` yields a line equal to the terminator, so the output holds two DONE lines |
| `Api.EmitChunks` | backend/api.py:84-89 | the inner loop over an event's items emits exactly the chunk lines of the event |
| `Api.EventBody` | backend/api.py:81-89 | the loop body for one event yields exactly the event's lines, or the failure of its namespace lookup |
| `Api.Drain` | backend/api.py:71-93 | the `async for` loop, the `except` clause and the final DONE emit exactly `Answer` of the events and the optional raised message |
| `Api.AnswerGenerator` | backend/api.py:67-93 | the orchestrator is driven on the stripped question as the single user message with recursion limit 150, and the lines emitted are exactly `Answer` of the resulting stream |
| `Api.Reached` | backend/api.py:101-102 | the first poll from a given index on that does not answer "still connected": every poll before it answered "still connected", and the one at it (if any) did not |
| `Api.Forward` | backend/api.py:100-106 | the lines sent are the given lines up to the first poll that does not answer "still connected"; after that, nothing if the poll said "disconnected", and one error line with the poll's message if the poll raised |
| `Api.SentShape` | backend/api.py:100-106 | every line sent before that poll is the given line at the same position, and at most one line follows, an error line |
| `Api.SentAll` | backend/api.py:100-106 | for lines ending with DONE, everything is sent exactly when every poll answers "still connected" |
| `Api.AnswerSentAll` | backend/api.py:91-106 | the client receives the whole answer, DONE included, exactly when every poll answers "still connected" |
| `Api.SecondErrorLine` | backend/api.py:100-106 | an answer that is an error line followed by DONE, sent with a poll that raises on its second call, reaches the client as two error lines and no DONE |
| `Api.EventStream` | backend/api.py:99-106 | what is sent is `Sent` of the generator's lines: its lines up to the first poll that does not answer "still connected", then one error line if that poll raised, so DONE can be lost or replaced |

## Left out

- The language model, `create_react_agent` and the agents' think/act loops are foreign library code. An agent is a total function from messages to messages, so an agent that raises is not modelled.
- `make_supervisor_node` and every tool (search, scrape, file read/write, Python REPL) are defined in `tools.py`, which is not part of this model. A supervisor appears only as its roster and a `Decision`.
- The LangGraph execution engine is not modelled: applying a `Command`, the message reducer, `invoke`/`astream` scheduling and the recursion limit's enforcement. Only the value 150 passed at backend/api.py:77 appears.
- LangGraph's own checks are reduced to the repeated/reserved node key check in `add_node` and the START/END check in `add_edge`. `add_node` also refuses keys containing `:` or `|` and keys that name a state channel (such as `messages`); these refusals are not modelled, and none of the keys used here triggers them. `compile()` validation is not modelled; the proofs show directly that the assembled graphs are well formed.
- `Orchestrator.TeamCallsRunTeamOnce`: a pure model cannot count calls. Instead of "invoked exactly once" it states that the result depends on the team graph only at the single input made of the latest message.
- `Api.AnswerGenerator`: the model computes the orchestrator's whole stream first. It does not capture that the real generator is lazy, so after a disconnect the orchestrator is no longer driven. The lines sent are the same.
- `Api.EventStream`: the `except` branch at backend/api.py:105-106 is modelled for a poll of `request.is_disconnected()` that raises. The other route into it is not modelled: `str(e)` at backend/api.py:92 raising inside `answer_generator`'s own handler.
- Cancellation is not modelled. Neither is a `BaseException` that is not an `Exception` (for example `GeneratorExit`).
- Chunk content is modelled as a string. The list-of-content-blocks form of `AIMessageChunk.content` is not modelled.
- `str(e)` for a non-dict second element is modelled as `'<type>' object is not subscriptable` for every type. Python words it differently for a `str` or `list`.
- A `checkpoint_ns` value that is not a string is not modelled; metadata maps strings to strings.
- `Text.Strip`: `str.isspace` is taken as the fixed set of characters Python accepts. Unicode database updates are not modelled.
- The FastAPI application, the CORS and logging middleware, the JSON exception handlers (backend/api.py:23-61) and `StreamingResponse` are HTTP plumbing. `misc.py`, `errs.py`, `log.py` and `Constants` are not part of this model.
- backend/test_api.py:54-76 expects HTTP 500 with a JSON body from the streaming endpoint. The code reports errors in-band with status 200, and the model follows the code.
- backend/test_research_team.py:84-94 expects a `KeyError` for a last message without content. The code reads `.content` as an attribute, which would raise a different exception. The model follows the code and only records that the node fails (`MissingContent`).
- backend/test.py and the frontend files (web/vite.config.js, web/src/router/index.js) are a run script and frontend configuration.
