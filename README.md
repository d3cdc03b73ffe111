# minimal_agents — a Dafny model of the agent's text protocol

`minimal_agents` is a small ReAct-style agent. A language model is prompted
with a question, the list of tools and the conversation so far. It answers
in a fixed text protocol:

- `Final Answer:` or `Chat Response:` ends the conversation;
- `Action: <tool>` followed by `Action Input: <input>` asks the agent to run
  a tool.

The tool's result is appended to the conversation as
`Observation: <result>` and the model is asked again. This goes on for at
most `max_iterations` rounds. After that the agent gives up and summarises
the last observations.

This project models, in Dafny:

- **`Text`** (`text.dfy`): the Python `str` operations the protocol is built
  from, each specified by what it returns: `in`, `find`, `split(m)[0]`,
  `split(m)[1]`, `strip()`, `strip(chars)`, `startswith`, `endswith`, `join`
  and `str(n)`.
- **`Parsing`** (`parsing.dfy`): the marker tokens and the stand-alone
  extractors of `minimal_agents/utils/parsing.py`. Each regular expression
  is written out as the scan the regex engine performs: a leftmost search,
  lazy groups that end at the first place where the rest of the pattern or
  the lookahead succeeds, `$` without MULTILINE, and `findall` resuming
  where the previous match ended.
- **`ResponseParser`** (`response_parser.dfy`): `MinimalAgent._extract_tool_call`
  as a total function onto `Directive = FinalAnswer | ChatAnswer | ToolCall | Unparseable`.
  It tries four tiers in order, and `Unparseable` is the `ValueError` the
  source raises.
- **`Registry`** (`registry.dfy`): the tool list, its rendered descriptions
  and names, the name-to-tool dictionary (the last tool of a name wins) and
  the removal filter.
- **`Agent`** (`agent.dfy`): `MinimalAgent.run` and its insight fallback.
  - The model, the prompt template and each tool's `run` are collaborators.
    They enter as function parameters, so everything the loop does with
    their answers is checked.
  - `Loop`/`RunSpec` state what `run` computes.
  - The class `MinimalAgent` holds the tool list and iteration bound. Its
    `Run` method is the source's `while` loop, proved to compute `RunSpec`.
  - Lemmas bound the iterations and model calls, describe the context the
    loop builds, and cover the fallback and the handling of tool failures.
- **`WebSearch`** (`web_search.dfy`): the web-search tool.
  - The three engines' result mapping is modelled over an already decoded
    JSON value, including the Python errors the mapping can raise on
    unexpected shapes.
  - It also covers the numbered listing of `_format_results` and the error
    wrapping of `run`.
  - The HTTP request is a collaborator.
- **`PythonRepl`** (`python_repl.dfy`): the Python REPL tool.
  - Code-fence removal is a method that rewrites the code step by step,
    proved against the function `Unfenced`, with round-trip lemmas for
    fenced blocks.
  - Then comes the choice between the captured output, the success line and
    the error text.
  - `exec` is a collaborator that sees all code run before, because the
    tool's namespace persists.

## Model

| member | source | states |
|---|---|---|
| Text.FindFrom | minimal_agents/agent.py:189-190 | the first index at or after a position where a marker occurs, with no occurrence before it; none when it occurs nowhere after the position |
| Text.Contains | minimal_agents/agent.py:189 | Python's `m in s`: `find` from index 0 succeeds |
| Text.ContainsIff | minimal_agents/agent.py:189 | `m in s` holds iff `m` occurs at some index of `s` |
| Text.IndexOf | minimal_agents/agent.py:190 | where a marker occurs, the least index at which it does |
| Text.SplitSecond | minimal_agents/agent.py:190 | `s.split(m)[1]` is the slice from just after the first `m` up to the next `m` or the end, and holds no `m` |
| Text.SplitFirst | minimal_agents/agent.py:206 | `s.split(m)[0]` is the prefix before the first `m` (all of `s` without one), and holds no `m` |
| Text.Strip | minimal_agents/agent.py:219 | `strip(chars)` is the middle slice of the input: everything it removes at either end is in `chars`, and its own ends are not |
| Text.StripWs | minimal_agents/agent.py:190 | `strip()` is `strip` with the characters `isspace` accepts: its ends are not whitespace, and it is never longer than its input |
| Text.StartsWith | minimal_agents/tools/code/python_repl.py:45-47 | Python's `s.startswith(p)`: `p` is a prefix of `s` |
| Text.EndsWith | minimal_agents/tools/code/python_repl.py:50 | Python's `s.endswith(p)`: `p` is a suffix of `s` |
| Text.Join | minimal_agents/agent.py:231 | `sep.join(parts)`: the empty text for no parts and the part itself for one; `JoinAt` places every part of a longer list |
| Text.StripKeepsAbsent | minimal_agents/agent.py:208 | stripping never creates an occurrence of a marker |
| Text.JoinAt | minimal_agents/agent.py:231 | each part stands in `sep.join(parts)` at the offset of the parts and separators before it |
| Text.NatToStringRoundTrip | minimal_agents/tools/web/search.py:186-187 | the decimal rendering of a result number reads back as that number |
| Parsing.MatchAction | minimal_agents/utils/parsing.py:25-26 | the action head matches iff the first `Action: ` is followed somewhere by `Action Input:`; a `[` right after the head is skipped; the name ends at the first place where an optional `]` and then all following newlines and `Action Input:` come; the input starts after the whitespace that follows |
| Parsing.HeadMatch | minimal_agents/agent.py:199 | given the first `Action Input:` after the head, the lazy name group ends no later than it, at the least position where the rest of the head matches |
| Parsing.FirstClose | minimal_agents/agent.py:199 | the lazy group `(.*?)` ends at the least position from which the rest of the pattern matches |
| Parsing.InputEnd | minimal_agents/utils/parsing.py:25 | the lazy input group ends at the first newline followed by whitespace and `Observation:`, or at the end |
| Parsing.ExtractToolCalls | minimal_agents/utils/parsing.py:15-33 | `(None, None)` exactly when the pattern fails; otherwise the whitespace-stripped name and the input cut before the first `\n<ws>Observation:` and stripped of space, newline and quotes only; the input never holds `\nObservation:` |
| Parsing.AnswerAfter | minimal_agents/utils/parsing.py:44-47 | None iff the marker is absent; otherwise the stripped `split(marker)[1]`, which holds no marker |
| Parsing.ExtractFinalAnswer | minimal_agents/utils/parsing.py:35-48 | None iff `Final Answer:` is absent, else the stripped text between its first and second occurrence (or the end) |
| Parsing.ExtractChatResponse | minimal_agents/utils/parsing.py:50-63 | the same for `Chat Response:` |
| Parsing.SegmentEnd | minimal_agents/utils/parsing.py:74 | a `findall` group ends at the first position where a stop marker, the end, or the final newline (`$`) follows |
| Parsing.SegmentHasNoStop | minimal_agents/utils/parsing.py:74 | a group the lookahead never stopped in holds no stop marker |
| Parsing.FindAll | minimal_agents/utils/parsing.py:75 | `findall` of `open(.*?)` up to a lookahead on a stop marker or `$`: there are matches iff `open` occurs, and never more matches than occurrences of `open` |
| Parsing.CountSkipTo | minimal_agents/utils/parsing.py:75 | counting occurrences from a position counts from the first occurrence after it |
| Parsing.FindAllCons | minimal_agents/utils/parsing.py:75 | a match at the first occurrence in front of the later matches keeps the count bound |
| Parsing.FindAllAvoidsStops | minimal_agents/utils/parsing.py:74-75 | no group holds a stop marker |
| Parsing.FindAllStep | minimal_agents/utils/parsing.py:75 | the first group is the text right after the first `open` up to the first stop after it, and the other groups are those found from that stop on, in order |
| Parsing.FindAllNone | minimal_agents/utils/parsing.py:75 | without an `open` there is no group |
| Parsing.CountPositiveIffFound | minimal_agents/utils/parsing.py:75 | a marker occurs at or after a position iff its count from there is positive |
| Parsing.ExtractObservations | minimal_agents/utils/parsing.py:65-76 | the stripped `findall` groups after `Observation:` up to `Thought:` or `$`, in text order (so the groups `FindAllStep` fixes); at most one per `Observation:`, none iff it is absent; each stripped and free of `Thought:` |
| Parsing.ExtractThoughts | minimal_agents/utils/parsing.py:78-89 | the stripped `findall` groups after `Thought:` up to `Action:`, `Plan:`, `Final Answer:` or `$`, in text order; at most one per `Thought:`, none iff it is absent; none holds a stop marker |
| ResponseParser.StrictCall | minimal_agents/agent.py:199-219 | the strict pattern matches iff the head does; the name is the stripped name group; the input runs to the end of the text, stripped of space, newline and quotes |
| ResponseParser.LooseCall | minimal_agents/agent.py:204-211 | applies iff both `Action:` and `Action Input:` occur; the name is the first line of `split("Action:")[1]`, stripped, so one line; the input is `split("Action Input:")[1]` cut at the first `Observation:` and stripped, and holds neither marker |
| ResponseParser.InputPartClean | minimal_agents/agent.py:207-210 | both branches of the input split agree when `Observation:` is absent, and neither result holds the markers |
| ResponseParser.StrictImpliesMarkers | minimal_agents/agent.py:199-204 | a strict match implies both markers the loose split needs, so the loose split only sees strict failures |
| ResponseParser.ExtractToolCall | minimal_agents/agent.py:179-220 | `Final Answer:` wins over `Chat Response:`, both over the action tiers; each answer is what the matching `parsing.py` extractor returns; a response is unparseable iff it has no answer marker and not both action markers; a tool call is the strict reading when the strict pattern matches, else the loose one |
| ResponseParser.StrictAgreesWithHelper | minimal_agents/utils/parsing.py:25-32 | where no `\n<ws>Observation:` follows the input, the agent's parser and `extract_tool_calls` read the same call |
| Registry.ToolDescriptions | minimal_agents/agent.py:45 | no tools give the empty text; one tool gives its `name: description` line |
| Registry.DescriptionListed | minimal_agents/agent.py:45 | every tool's `name: description` line stands in the descriptions, in list order, after the lines and newlines before it |
| Registry.ToolNames | minimal_agents/agent.py:50 | no tools give the empty text; one tool gives its name |
| Registry.NameListed | minimal_agents/agent.py:50 | every name stands in the `, `-joined list, in list order |
| Registry.ToolByName | minimal_agents/agent.py:55 | the keys are exactly the names in the list, and each name maps to the last tool carrying it |
| Registry.LastWinsStep | minimal_agents/agent.py:55 | one more entry of the comprehension keeps both facts |
| Registry.AppendedToolWins | minimal_agents/agent.py:250 | after appending a tool, its name resolves to it |
| Registry.AppendedToolNamed | minimal_agents/agent.py:45-50 | appending a tool appends its name and its description line to the rendered lists |
| Registry.WithoutTool | minimal_agents/agent.py:262 | the filtered list holds exactly the tools of other names |
| Registry.WithoutToolAppend | minimal_agents/agent.py:262 | filtering a concatenation filters each part in order, so the kept tools keep their order |
| Registry.WithoutToolShrinks | minimal_agents/agent.py:261-263 | the list gets shorter iff some tool had the name |
| Agent.FormatPrompt | minimal_agents/agent.py:155-177 | `_format_prompt` hands the template the tool descriptions, the tool names, the question and the context joined by newlines |
| Agent.LastN | minimal_agents/agent.py:239 | `s[-n:]` is the last `min(n, len(s))` elements, in order |
| Agent.ObservationMatches | minimal_agents/agent.py:231-235 | the raw `findall` groups of `Observation:` up to `Thought:` or `$`: none iff the text holds no `Observation:`, at most one per occurrence, none holding `Thought:` |
| Agent.Insights | minimal_agents/agent.py:231-242 | the last three results of `extract_observations` on the newline-joined context (its `Observation:` groups, stripped), in order, joined by blank lines; the empty text when the context holds no `Observation:` |
| Agent.ExtractInsights | minimal_agents/agent.py:222-242 | `_extract_insights` computes `Insights` of the context |
| Agent.StripAll | minimal_agents/agent.py:239-240 | the loop appends each match stripped, in order |
| Agent.Observe | minimal_agents/agent.py:117-141 | an unknown name gives `Error: Unknown tool: <name>. Available tools: <names>`; a raising tool gives `Error: <message>`; otherwise the tool's output in that iteration |
| Agent.Advance | minimal_agents/agent.py:91-99 | an iteration counts itself; the first keeps the response it has, every later one is the model's next answer to the prompt rendered from the whole current context |
| Agent.Act | minimal_agents/agent.py:101-141 | a tool runs iff the response parses to a call not named `Final Answer` or `Chat Response`, and then the observation is `Observe` of that call; `run` raises iff the response is unparseable |
| Agent.Dispatch | minimal_agents/agent.py:101-145 | an unparseable response stops with the `ValueError` quoting it; an answer marker stops with that answer; a call named `Final Answer` or `Chat Response` stops with its input; any other call continues with the response plus `\nObservation: <result>\nThought:`, with `Observe` of that call as the one new observation and that entry appended to the context; stopping leaves the state unchanged |
| Agent.Step | minimal_agents/agent.py:90-145 | one iteration: one more iteration, one more model call after the first, and the decision of `Dispatch` on the advanced response |
| Agent.Loop | minimal_agents/agent.py:90-153 | the loop never takes the chat fast path; running out of iterations answers with the fallback sentence and the insights of the final context; it raises exactly when it ends on an unparseable response |
| Agent.RunSpec | minimal_agents/agent.py:57-153 | the chat fast path is taken iff the first response holds `Chat Response:`, and answers with the stripped text after it; running out of iterations answers with the fallback and the insights; `run` raises exactly on an unparseable response |
| Agent.RunSpecLoops | minimal_agents/agent.py:81-90 | without the chat fast path, `run` is the loop from the context holding the first response |
| Agent.LoopKeeps | minimal_agents/agent.py:90-153 | from any state satisfying the loop invariant, the loop ends with one model call per iteration, within the bound, with a context and observations that extend the state's, one entry per dispatched call, the fallback on exhaustion, and a raised error exactly on an unparseable response |
| Agent.RunKeeps | minimal_agents/agent.py:57-153 | the loop invariant's facts hold of the whole run from its entry state |
| Agent.CallBound | minimal_agents/agent.py:78-99 | the model is called at least once and at most `max(1, max_iterations)` times; at most `max(0, max_iterations)` iterations run |
| Agent.ContextGrowth | minimal_agents/agent.py:81-145 | the chat fast path happens iff the first response holds `Chat Response:`, and leaves the context empty; otherwise the context is the first response followed by one entry per dispatched call, each ending with that call's observation |
| Agent.ExhaustionFallsBack | minimal_agents/agent.py:147-153 | running out of iterations answers with the fixed sentence and the insights of the full context, after exactly `max(0, max_iterations)` iterations |
| Agent.SoftFailuresContinue | minimal_agents/agent.py:116-145 | an unknown tool or a raising tool never ends the loop: its error becomes the observation and one entry is appended |
| Agent.NamedAnswerEnds | minimal_agents/agent.py:104-114 | a call named `Final Answer` or `Chat Response` ends the loop with its input, even without either marker |
| Agent.MarkerAnswerEnds | minimal_agents/agent.py:102-114 | a loop response holding `Final Answer:` returns what `extract_final_answer` reads from it; one holding only `Chat Response:` returns what `extract_chat_response` reads; the context stays as it was |
| Agent.ChatFastPathAnswers | minimal_agents/agent.py:78-85 | a first response with `Chat Response:` is answered with what `extract_chat_response` reads, after one model call, no iteration and no context |
| Agent.UnparseableStops | minimal_agents/agent.py:202-216 | an unparseable response ends `run` with the `ValueError` quoting it |
| Agent.MinimalAgent.constructor | minimal_agents/agent.py:29-33 | the agent holds the given tools and iteration bound |
| Agent.MinimalAgent.Create | minimal_agents/agent.py:265-289 | `create` uses the given tools and the default bound of 10 |
| Agent.MinimalAgent.AddTool | minimal_agents/agent.py:250 | the tool is appended at the end and nothing else changes |
| Agent.MinimalAgent.RemoveTool | minimal_agents/agent.py:261-263 | the list becomes the tools of other names, in order; the result is true iff some tool had the name |
| Agent.MinimalAgent.Execute | minimal_agents/agent.py:116-141 | the tool result is `Observe` of the call |
| Agent.MinimalAgent.ActOnResponse | minimal_agents/agent.py:101-141 | the iteration's decision after generation is `Act` with the agent's own parser |
| Agent.MinimalAgent.Run | minimal_agents/agent.py:57-153 | `run` returns what `RunSpec` says, leaving the context and the number of model calls it describes |
| WebSearch.Member | minimal_agents/tools/web/search.py:91 | `key in v` raises only on a non-container, as a failed membership test on that value, and tests the keys of an object |
| WebSearch.Head | minimal_agents/tools/web/search.py:92 | `xs[:n]` is a prefix of length `min(n, len)`, or for negative `n` all but the last `-n` |
| WebSearch.SliceItems | minimal_agents/tools/web/search.py:92-93 | slicing a list gives its prefix; slicing an object or a scalar raises as a failed slice of that value; a non-empty string slice raises at `.get` on its first character; never more than `n` records |
| WebSearch.ListUnder | minimal_agents/tools/web/search.py:91-92 | an absent key gives no records; a present one gives the slice of its value |
| WebSearch.ResultItems | minimal_agents/tools/web/search.py:90-169 | per engine, a missing top-level key gives no records; SerpAPI reads `organic_results[:n]`, Google `items[:n]`, Bing `webPages.value[:n]`; never more than `n` records |
| WebSearch.FieldText | minimal_agents/tools/web/search.py:94-96 | a missing field gives its default; a string is used as is; a number, boolean or null gives its `str` text; a list or object is rendered by `show` |
| WebSearch.ToEntry | minimal_agents/tools/web/search.py:93-97 | a record maps iff it is an object; missing fields become `No title`, `No snippet available`, `#`; string fields are taken verbatim |
| WebSearch.Entries | minimal_agents/tools/web/search.py:92-97 | the mapped entries correspond one to one and in order to the records; the mapping raises iff some record is not an object, at `.get` on the first such record |
| WebSearch.CollectResults | minimal_agents/tools/web/search.py:90-99 | the append loop computes `Entries` |
| WebSearch.PrefixRaises | minimal_agents/tools/web/search.py:92-97 | once a prefix raises, the whole mapping raises on the same record |
| WebSearch.Formatted | minimal_agents/tools/web/search.py:181-184 | no results give `No results found for query: <q>`; otherwise the text starts with `Search results for: <q>\n\n` |
| WebSearch.EntryListed | minimal_agents/tools/web/search.py:184-191 | entry `k` stands in the listing as block number `k + 1` (title line, indented snippet line, indented `URL:` line, blank line), right after the blocks before it |
| WebSearch.GlueStep | minimal_agents/tools/web/search.py:187-189 | the three `+=` steps append one whole block |
| WebSearch.FormatResults | minimal_agents/tools/web/search.py:171-191 | `_format_results` computes `Formatted` |
| WebSearch.Search | minimal_agents/tools/web/search.py:56-61 | Google without `GOOGLE_CSE_ID` fails with its message; a failed request fails with its message; an exception while selecting or mapping the records fails with the text of that operation's exception on that value; when nothing raises, the search succeeds with the `Entries` of the body's selected records, and a success is only that, at most `max_results` of them |
| WebSearch.FormattedIsNoError | minimal_agents/tools/web/search.py:181-184 | neither the no-results line nor a listing starts with `Search error: ` |
| WebSearch.Searched | minimal_agents/tools/web/search.py:65-67 | a failed search gives `Search error: <message>`, a successful one its formatted listing, and the text starts with `Search error: ` exactly when the search failed |
| WebSearch.SearchOutput | minimal_agents/tools/web/search.py:53-67 | an unknown engine gives `Error: Unsupported search engine '<engine>'`; otherwise the search on the stripped query |
| WebSearch.QueryStripped | minimal_agents/tools/web/search.py:53 | surrounding whitespace on the input changes nothing |
| WebSearch.MissingKeyNoResults | minimal_agents/tools/web/search.py:90-99 | a body without the engine's top-level key yields `No results found for query: <q>` |
| WebSearch.ScalarBodyFails | minimal_agents/tools/web/search.py:91 | a body that decoded to a number, boolean or null gives `Search error:` with the membership test's error on that value |
| WebSearch.UnsliceableResultsFail | minimal_agents/tools/web/search.py:91-92 | a SerpAPI or Google results key holding a scalar or an object gives `Search error:` with the slice's error on that value |
| WebSearch.OutputKinds | minimal_agents/tools/web/search.py:55-67 | `run` never raises: its text is the unsupported message, a `Search error:`, the no-results line or a listing |
| WebSearch.WebSearch.constructor | minimal_agents/tools/web/search.py:38-39 | the tool keeps the engine and the result limit |
| WebSearch.WebSearch.Run | minimal_agents/tools/web/search.py:44-67 | `run` returns `SearchOutput` for its engine and limit |
| PythonRepl.LeadingFence | minimal_agents/tools/code/python_repl.py:45-48 | a leading fence tagged `python` removes 9 characters and takes precedence over a bare fence, which removes 3; otherwise nothing |
| PythonRepl.WithoutTrailingFence | minimal_agents/tools/code/python_repl.py:50-51 | a trailing fence (three backticks) is removed once, and only then |
| PythonRepl.Unfenced | minimal_agents/tools/code/python_repl.py:42-51 | the executed code is the slice of the stripped input after the leading fence, up to three characters before the end exactly when that rest ends with a fence, and to the end otherwise |
| PythonRepl.CleanCode | minimal_agents/tools/code/python_repl.py:41-51 | the step-by-step rewrite of `code` computes `Unfenced` |
| PythonRepl.UnfencedSteps | minimal_agents/tools/code/python_repl.py:42-51 | the executed code is the leading-fence cut followed by the trailing-fence cut, in that order |
| PythonRepl.PythonFenceRoundTrip | minimal_agents/tools/code/python_repl.py:42-51 | a block fenced with the `python` tag runs exactly its body |
| PythonRepl.NoTagAfterFence | minimal_agents/tools/code/python_repl.py:45-47 | a bare fence before a body that does not start with `python` is not a `python` fence |
| PythonRepl.BareFenceRoundTrip | minimal_agents/tools/code/python_repl.py:42-51 | a bare-fenced block runs exactly its body unless the body starts with `python` |
| PythonRepl.UnfencedPassesThrough | minimal_agents/tools/code/python_repl.py:42-51 | unfenced code runs as its strip |
| PythonRepl.Reply | minimal_agents/tools/code/python_repl.py:61-70 | non-blank output is returned verbatim; blank output gives `Code executed successfully (no output).`; an exception gives `Error: <message>` |
| PythonRepl.ReplyNeverBlank | minimal_agents/tools/code/python_repl.py:63-70 | the agent always receives visible text from the tool |
| PythonRepl.PythonReplTool.constructor | minimal_agents/tools/code/python_repl.py:28-30 | a new tool starts with an empty namespace history |
| PythonRepl.PythonReplTool.Run | minimal_agents/tools/code/python_repl.py:32-73 | `run` executes the unfenced code after all earlier code, records it, and replies with `Reply` of the result |

## Left out

- The language model, the HTTP requests of the search tool, and `exec` in
  the REPL tool are collaborators passed in as functions:
  - the model as `generate(call index, prompt, stop)`;
  - a tool as `invoke(iteration, tool, input)`, so a tool with state of its
    own may answer the same input differently from one iteration to the
    next;
  - a search back end as `fetch(engine, query, max_results)`;
  - execution as `exec(earlier code, code)`.
  What they compute is not modelled.
- `_format_prompt` is the function parameter `render`. The date, the
  template text and `str.format` (agent.py:155-177, utils/prompts.py) are
  inside it. utils/prompts.py is not part of this model.
- The stop sequences are passed to the model unchanged. The model's own use
  of them is not modelled.
- The `verbose` prints and the 500-character display truncation only write
  to the console and are left out.
- The search tool's API key is left out: its environment lookup and the
  constructor's `ValueError` when it is missing (search.py:37-42).
  `GOOGLE_CSE_ID` is the `cseId` field of the back end, empty when unset.
- `raise_for_status` and `.json()` are inside `fetch`. Their failures arrive
  as `Failed(message)`.
- The text of a Python exception raised by the result mapping comes from the
  `describe` collaborator, given the operation that raised (`in`, a slice, a
  subscript or `.get`) and the value it was applied to. A decoded number,
  boolean or null keeps its `str` text, so these values stay distinct.
  `str()` of a decoded list or object comes from `show`.
- The REPL tool's namespace dictionaries and the `sys.stdout` swap are left
  out. The model keeps the history of executed code instead, so a run may
  depend on everything run before it.
- The REPL catches only `Exception`, so a `BaseException` such as
  `SystemExit` escapes it. That is not modelled.
- The collaborators are total: `generate` always returns a response and
  `invoke` gives either output or an `Exception`. So `run` is modelled as
  returning an answer or raising only the unparseable-response
  `ValueError`. Two ways `run` can also raise are not modelled:
  - an exception from the model call (agent.py:78, 98; the OpenAI client in
    llm/openai.py:57-63), which no `try` surrounds;
  - a tool's `BaseException` that is not an `Exception`, such as
    `KeyboardInterrupt` or `SystemExit`, which escapes the
    `except Exception` of agent.py:138.
- Pydantic validation, `Tool.to_dict`, the LLM client classes and the
  example script are left out.
- `extract_tool_calls`, `extract_observations` and `extract_thoughts` are
  modelled but not used by the loop, because `run` calls none of them.
- The recursive loop specification takes the response parser as a parameter so that the lemmas
  about one iteration can be stated for it. `RunSpec` and
  `MinimalAgent.Run` always use `ExtractToolCall`.
- Integers are unbounded. `max_iterations` and `max_results` may be
  negative, and the model follows Python for them: the loop does not run,
  and `[:n]` drops elements from the end.

## Notes on the source

- `_extract_tool_call` checks `Final Answer:` before `Chat Response:`
  (agent.py:189-196). The model follows the code, so a response holding
  both markers is a final answer.
- The agent's own action pattern (agent.py:199) takes the input to the end
  of the text. The helper in parsing.py:25 stops before a newline followed
  by optional whitespace and `Observation:`. The two differ on a response that already holds an
  observation, and `ResponseParser.StrictAgreesWithHelper` states where
  they agree.
- The loop's `Chat Response` check (agent.py:111-114) can be reached. From
  the second iteration on, the response is regenerated, and the chat marker
  is only looked for in the first response before the loop. A call named
  `Chat Response` also reaches it.
