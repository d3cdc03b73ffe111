/** The controller of minimal_agents/agent.py: `MinimalAgent.run`, its
    insight fallback, and the tool-list mutators. The language model, the
    prompt template and each tool's `run` are collaborators the controller
    only calls; they are parameters here, so that everything the loop does
    with their answers is checked.

    `Loop` is the loop of `run` (agent.py:90-153) as a recursive function
    over the loop's state, and `RunSpec` is all of `run`; the method
    `MinimalAgent.Run` is the loop as the source writes it and is proved to
    compute `RunSpec`. The lemmas state what `run` promises:
    the bound on iterations and model calls, one context entry per
    dispatched call, the fallback and the soft handling of tool failures. */
module Agent {
  import opened Text
  import opened Parsing
  import opened Registry
  import opened ResponseParser

  /** `max_iterations` unless the caller sets it. */
  const DefaultMaxIterations: int := 10

  /** The stop sequences every generation call passes to the model. */
  const StopPatterns: seq<string> := ["\n" + ObservationToken, "\n\t" + ObservationToken]

  /** The fixed sentence that opens the answer when the loop runs out. */
  const FallbackPrefix :=
    "I wasn't able to reach a definite conclusion after multiple attempts. Here's what I found: "

  /** The `ValueError` message for a response no parser tier accepts. */
  const UnparseablePrefix := "Could not parse tool call from response: "

  /** What one call of a tool's `run` does: return text or raise. */
  datatype ToolOutcome = Output(text: string) | Raised(message: string)

  /** What `run` does: return its answer, or raise the `ValueError` of an
      unparseable response (the only failure the model lets reach the
      caller, since the collaborators here never raise past the loop). */
  datatype RunOutcome = Answer(text: string) | ParseError(message: string)

  /** The collaborators of one `run`:
      - `render(tool_description, tool_names, question, previous_responses)`
        is `prompt_template.format(...)`, with today's date fixed inside it;
      - `generate(n, prompt, stop)` is the model's answer to its `n`-th call
        (counted from 0), so the model may answer the same prompt differently;
      - `invoke(n, tool, input)` is that tool's `run(input)` in the loop's
        `n`-th iteration (counted from 1, as `iterations` counts), so a tool
        with state of its own, such as the Python REPL, may answer the same
        input differently in different iterations. */
  datatype Collaborators = Collaborators(
    render: (string, string, string, string) -> string,
    generate: (nat, string, seq<string>) -> string,
    invoke: (nat, Tool, string) -> ToolOutcome)

  /** `_format_prompt(query, context)`. */
  function FormatPrompt(c: Collaborators, tools: seq<Tool>, query: string, context: seq<string>): string {
    c.render(ToolDescriptions(tools), ToolNames(tools), query, Join(context, "\n"))
  }

  function Max(a: int, b: int): int {
    if a < b then b else a
  }

  // ---------------------------------------------------------------------
  // The insight fallback (agent.py:222-242)
  // ---------------------------------------------------------------------

  /** The last `n` elements of `s`, or all of them if there are fewer:
      Python's `s[-n:]` for `n > 0`. */
  function LastN<T>(s: seq<T>, n: nat): (r: seq<T>)
    requires n > 0
    ensures |r| == if |s| < n then |s| else n
    ensures s == s[..|s| - |r|] + r
  {
    if |s| < n then s else s[|s| - n..]
  }

  /** The raw `Observation:` groups of `re.findall` in `_extract_insights`
      (agent.py:234-235), before they are stripped: none exactly when the
      text holds no `Observation:`, at most one per occurrence, and none
      holding `Thought:`. */
  function ObservationMatches(text: string): (r: seq<string>)
    ensures r == [] <==> !Contains(text, ObservationToken)
    ensures |r| <= CountFrom(text, ObservationToken, 0)
    ensures forall j :: 0 <= j < |r| ==> !Contains(r[j], ThoughtToken)
  {
    CountPositiveIffFound(text, ObservationToken, 0);
    FindAllAvoidsStops(text, ObservationToken, [ThoughtToken], 0);
    var r := FindAll(text, ObservationToken, [ThoughtToken], 0);
    assert forall j :: 0 <= j < |r| ==> !Contains(r[j], [ThoughtToken][0]);
    r
  }

  /** What `_extract_insights` returns: the last three `Observation:` groups
      of the newline-joined context, each stripped, separated by blank lines;
      the empty string when the context holds no observation. These are the
      last three results of `extract_observations` on that text: taking the
      last three and then stripping them is stripping all and then taking
      the last three. */
  function Insights(context: seq<string>): (r: string)
    ensures r == Join(LastN(ExtractObservations(Join(context, "\n")), 3), "\n\n")
    ensures !Contains(Join(context, "\n"), ObservationToken) ==> r == []
  {
    var matches := ObservationMatches(Join(context, "\n"));
    assert ExtractObservations(Join(context, "\n")) == StripEach(matches);
    assert StripEach(LastN(matches, 3)) == LastN(StripEach(matches), 3);
    Join(StripEach(LastN(matches, 3)), "\n\n")
  }

  /** `_extract_insights`: joins the context, finds the observations, and
      strips and collects the last three. */
  method ExtractInsights(context: seq<string>) returns (insights: string)
    ensures insights == Insights(context)
  {
    var combined := Join(context, "\n");
    var matches := ObservationMatches(combined);
    var observations := StripAll(LastN(matches, 3));
    insights := Join(observations, "\n\n");
  }

  /** The loop of `_extract_insights` (agent.py:239-240): each match,
      stripped, is appended in order. */
  method StripAll(parts: seq<string>) returns (stripped: seq<string>)
    ensures stripped == StripEach(parts)
  {
    stripped := [];
    for k := 0 to |parts|
      invariant |stripped| == k
      invariant forall i :: 0 <= i < k ==> stripped[i] == StripWs(parts[i])
    {
      stripped := stripped + [StripWs(parts[k])];
    }
  }

  // ---------------------------------------------------------------------
  // One pass of the loop (agent.py:90-145)
  // ---------------------------------------------------------------------

  /** The loop's variables: the context list, the latest response, the
      iteration counter, how many times the model was called, and (for the
      proofs) the tool results observed so far. */
  datatype LoopState = LoopState(
    context: seq<string>, response: string, iterations: nat, calls: nat, observations: seq<string>)

  /** How `run` ended. */
  datatype Exit = ChatFastPath | Concluded | ParseFailed | OutOfIterations

  /** Everything `run` leaves behind. */
  datatype RunTrace = RunTrace(
    outcome: RunOutcome, exit: Exit, context: seq<string>, iterations: nat, calls: nat, observations: seq<string>)

  datatype StepResult = Stop(outcome: RunOutcome, exit: Exit, state: LoopState) | Continue(state: LoopState)

  /** The observation text for a call of tool `name` in iteration `n`: the
      tool's output, or `Error: <message>` if it raised, or an unknown-tool
      error naming the registered tools. */
  function Observe(c: Collaborators, tools: seq<Tool>, n: nat, name: string, input: string): (obs: string)
    ensures name !in ToolByName(tools) ==>
      obs == "Error: " + ("Unknown tool: " + name + ". Available tools: " + ToolNames(tools))
    ensures name in ToolByName(tools) && c.invoke(n, ToolByName(tools)[name], input).Raised? ==>
      obs == "Error: " + c.invoke(n, ToolByName(tools)[name], input).message
    ensures name in ToolByName(tools) && c.invoke(n, ToolByName(tools)[name], input).Output? ==>
      obs == c.invoke(n, ToolByName(tools)[name], input).text
  {
    var byName := ToolByName(tools);
    if name !in byName then
      var errorMsg := "Unknown tool: " + name + ". Available tools: " + ToolNames(tools);
      "Error: " + errorMsg
    else match c.invoke(n, byName[name], input)
      case Output(text) => text
      case Raised(message) => "Error: " + message
  }

  /** The text appended to a response once its tool call was dispatched. */
  function ObservationSuffix(observation: string): string {
    "\nObservation: " + observation + "\nThought:"
  }

  /** The start of an iteration: count it and, unless it is the first,
      ask the model again (its call number `calls`) with the prompt rendered
      from the whole current context; the first iteration works on the
      response `run` already has. */
  function Advance(c: Collaborators, tools: seq<Tool>, query: string, st: LoopState): (r: LoopState)
    ensures r.iterations == st.iterations + 1
    ensures r.calls == if st.iterations == 0 then st.calls else st.calls + 1
    ensures r.context == st.context && r.observations == st.observations
    ensures st.iterations == 0 ==> r.response == st.response
    ensures st.iterations > 0 ==>
      r.response == c.generate(st.calls, FormatPrompt(c, tools, query, st.context), StopPatterns)
  {
    if st.iterations + 1 > 1 then
      var response := c.generate(st.calls, FormatPrompt(c, tools, query, st.context), StopPatterns);
      LoopState(st.context, response, st.iterations + 1, st.calls + 1, st.observations)
    else
      LoopState(st.context, st.response, st.iterations + 1, st.calls, st.observations)
  }

  /** What a response leads to: `run` returns (an answer or the parse
      error), or a tool call is dispatched and yields an observation. */
  datatype Action = Finish(outcome: RunOutcome) | Observed(observation: string)

  /** The decision of one iteration, for a given parser: stop on an
      unparseable response, on either answer marker and on a call named
      `Final Answer` or `Chat Response`; otherwise run the named tool. */
  function Act(c: Collaborators, tools: seq<Tool>, parse: string -> Directive, n: nat, response: string): (a: Action)
    ensures a.Observed? <==> parse(response).ToolCall? && !IsAnswerName(parse(response).name)
    ensures a.Observed? ==> a.observation == Observe(c, tools, n, parse(response).name, parse(response).input)
    ensures a.Finish? ==> (a.outcome.ParseError? <==> parse(response).Unparseable?)
  {
    match parse(response)
    case Unparseable => Finish(ParseError(UnparseablePrefix + response))
    case FinalAnswer(answer) => Finish(Answer(answer))
    case ChatAnswer(answer) => Finish(Answer(answer))
    case ToolCall(name, input) =>
      if IsAnswerName(name) then Finish(Answer(input))
      else Observed(Observe(c, tools, n, name, input))
  }

  /** The two tool names the loop treats as an answer (agent.py:105, 111). */
  predicate IsAnswerName(name: string) {
    name == "Final Answer" || name == "Chat Response"
  }

  /** What `run` does with a parsed response, once the response is known:
      an unparseable one is the `ValueError` quoting it, either answer marker
      and a call named as an answer return that text, and any other call is
      dispatched, its observation appended to the response. */
  predicate Decides(c: Collaborators, tools: seq<Tool>, n: nat, response: string, d: Directive, r: StepResult) {
    && (d.Unparseable? ==> r.Stop? && r.outcome == ParseError(UnparseablePrefix + response))
    && ((d.FinalAnswer? || d.ChatAnswer?) ==> r.Stop? && r.outcome == Answer(d.answer))
    && (d.ToolCall? && IsAnswerName(d.name) ==> r.Stop? && r.outcome == Answer(d.input))
    && (d.ToolCall? && !IsAnswerName(d.name) ==>
          && r.Continue?
          && r.state.response == response + ObservationSuffix(Observe(c, tools, n, d.name, d.input)))
  }

  /** The rest of an iteration: stop as `Act` says, or append the response
      with its observation to the context. */
  function Dispatch(c: Collaborators, tools: seq<Tool>, parse: string -> Directive, st: LoopState): (r: StepResult)
    ensures Decides(c, tools, st.iterations, st.response, parse(st.response), r)
    ensures r.state.iterations == st.iterations && r.state.calls == st.calls
    ensures r.Stop? ==> r.state == st
    ensures r.Stop? ==> r.exit == Concluded || r.exit == ParseFailed
    ensures r.Stop? ==> (r.outcome.ParseError? <==> r.exit == ParseFailed)
    ensures r.Continue? ==>
      && |r.state.observations| == |st.observations| + 1
      && r.state.observations[..|st.observations|] == st.observations
      && r.state.context == st.context + [r.state.response]
      && EndsWith(r.state.response, ObservationSuffix(r.state.observations[|st.observations|]))
    ensures r.Continue? ==>
      var d := parse(st.response);
      d.ToolCall? && r.state.observations == st.observations + [Observe(c, tools, st.iterations, d.name, d.input)]
  {
    match Act(c, tools, parse, st.iterations, st.response)
    case Finish(outcome) => Stop(outcome, if outcome.ParseError? then ParseFailed else Concluded, st)
    case Observed(observation) =>
      var observed := st.response + ObservationSuffix(observation);
      assert observed[|observed| - |ObservationSuffix(observation)|..] == ObservationSuffix(observation);
      Continue(LoopState(st.context + [observed], observed, st.iterations, st.calls, st.observations + [observation]))
  }

  /** One iteration. */
  function Step(c: Collaborators, tools: seq<Tool>, parse: string -> Directive, query: string, st: LoopState): (r: StepResult)
    ensures var response := Advance(c, tools, query, st).response;
      Decides(c, tools, st.iterations + 1, response, parse(response), r)
    ensures r.state.iterations == st.iterations + 1
    ensures r.state.calls == if st.iterations == 0 then st.calls else st.calls + 1
    ensures r.Stop? ==> r.state.context == st.context && r.state.observations == st.observations
    ensures r.Stop? ==> r.exit == Concluded || r.exit == ParseFailed
    ensures r.Stop? ==> (r.outcome.ParseError? <==> r.exit == ParseFailed)
    ensures r.Continue? ==>
      && |r.state.observations| == |st.observations| + 1
      && r.state.observations[..|st.observations|] == st.observations
      && r.state.context == st.context + [r.state.response]
      && EndsWith(r.state.response, ObservationSuffix(r.state.observations[|st.observations|]))
  {
    Dispatch(c, tools, parse, Advance(c, tools, query, st))
  }

  /** The loop from a given state on, including the fallback once the
      counter reaches `maxIterations`. */
  function Loop(c: Collaborators, tools: seq<Tool>, parse: string -> Directive, maxIterations: int, query: string, st: LoopState): (r: RunTrace)
    ensures r.exit != ChatFastPath
    ensures r.exit == OutOfIterations ==> r.outcome == Answer(FallbackPrefix + Insights(r.context))
    ensures r.outcome.ParseError? <==> r.exit == ParseFailed
    decreases maxIterations - st.iterations
  {
    if st.iterations >= maxIterations then
      RunTrace(Answer(FallbackPrefix + Insights(st.context)), OutOfIterations,
               st.context, st.iterations, st.calls, st.observations)
    else
      match Step(c, tools, parse, query, st)
      case Stop(outcome, exit, s) => RunTrace(outcome, exit, s.context, s.iterations, s.calls, s.observations)
      case Continue(s) => Loop(c, tools, parse, maxIterations, query, s)
  }

  /** The first response: the model's answer to the prompt with an empty
      context. */
  function FirstResponse(c: Collaborators, tools: seq<Tool>, query: string): string {
    c.generate(0, FormatPrompt(c, tools, query, []), StopPatterns)
  }

  /** All of `run`: the chat fast path, else the loop from the context that
      holds the first response. */
  function RunSpec(c: Collaborators, tools: seq<Tool>, maxIterations: int, query: string): (r: RunTrace)
    ensures r.exit == ChatFastPath <==> Contains(FirstResponse(c, tools, query), ChatResponseToken)
    ensures r.exit == ChatFastPath ==> r.outcome == Answer(StripWs(SplitSecond(FirstResponse(c, tools, query), ChatResponseToken)))
    ensures r.exit == OutOfIterations ==> r.outcome == Answer(FallbackPrefix + Insights(r.context))
    ensures r.outcome.ParseError? <==> r.exit == ParseFailed
  {
    var first := FirstResponse(c, tools, query);
    if Contains(first, ChatResponseToken) then
      RunTrace(Answer(StripWs(SplitSecond(first, ChatResponseToken))), ChatFastPath, [], 0, 1, [])
    else
      Loop(c, tools, ExtractToolCall, maxIterations, query, LoopState([first], first, 0, 1, []))
  }

  /** Without the chat fast path, `run` is the loop from the context that
      holds only the first response. */
  lemma RunSpecLoops(c: Collaborators, tools: seq<Tool>, maxIterations: int, query: string)
    requires !Contains(FirstResponse(c, tools, query), ChatResponseToken)
    ensures var first := FirstResponse(c, tools, query);
      RunSpec(c, tools, maxIterations, query) == Loop(c, tools, ExtractToolCall, maxIterations, query, LoopState([first], first, 0, 1, []))
  {
  }

  /** The loop's variables when it is entered. */
  lemma LoopEntry(c: Collaborators, tools: seq<Tool>, maxIterations: int, query: string,
                  context: seq<string>, response: string, calls: nat)
    requires response == FirstResponse(c, tools, query) && !Contains(response, ChatResponseToken)
    requires context == [response] && calls == 1
    ensures Loop(c, tools, ExtractToolCall, maxIterations, query, LoopState(context, response, 0, calls, []))
            == RunSpec(c, tools, maxIterations, query)
  {
    RunSpecLoops(c, tools, maxIterations, query);
  }

  // ---------------------------------------------------------------------
  // What the loop keeps and guarantees
  // ---------------------------------------------------------------------

  /** Each context entry after the first ends with the observation of the
      call it dispatched, in dispatch order. */
  predicate EntriesObserved(context: seq<string>, observations: seq<string>)
    requires |context| == |observations| + 1
  {
    forall i :: 0 <= i < |observations| ==> EndsWith(context[i + 1], ObservationSuffix(observations[i]))
  }

  /** What holds of the loop state before each iteration. */
  predicate LoopInvariant(maxIterations: int, first: string, st: LoopState) {
    && |st.context| == st.iterations + 1
    && |st.observations| == st.iterations
    && st.context[0] == first
    && st.calls == Max(1, st.iterations)
    && st.iterations <= Max(0, maxIterations)
    && EntriesObserved(st.context, st.observations)
  }

  /** What holds when the loop has ended: the model was called once per
      iteration (and at least once), no more than `maxIterations` iterations
      ran, the context holds the first response and one entry per
      dispatched call, and running out of iterations returns the fallback. */
  predicate TraceFacts(maxIterations: int, first: string, t: RunTrace) {
    && t.exit != ChatFastPath
    && t.calls == Max(1, t.iterations)
    && t.iterations <= Max(0, maxIterations)
    && |t.context| == |t.observations| + 1
    && t.context[0] == first
    && EntriesObserved(t.context, t.observations)
    && (t.exit == OutOfIterations ==>
          && t.iterations == Max(0, maxIterations)
          && |t.context| == t.iterations + 1
          && t.outcome == Answer(FallbackPrefix + Insights(t.context)))
    && (t.exit != OutOfIterations ==> |t.context| == t.iterations)
    && (t.outcome.ParseError? <==> t.exit == ParseFailed)
  }

  /** The loop only counts up and only appends to the context and to the
      observations. */
  predicate Extends(start: LoopState, t: RunTrace) {
    && start.iterations <= t.iterations
    && |start.context| <= |t.context|
    && |start.observations| <= |t.observations|
    && t.context[..|start.context|] == start.context
    && t.observations[..|start.observations|] == start.observations
  }

  predicate LoopEnded(maxIterations: int, first: string, start: LoopState, t: RunTrace) {
    TraceFacts(maxIterations, first, t) && Extends(start, t)
  }

  /** The trace of a loop that stops at its next step. */
  function StopTrace(r: StepResult): RunTrace
    requires r.Stop?
  {
    RunTrace(r.outcome, r.exit, r.state.context, r.state.iterations, r.state.calls, r.state.observations)
  }

  lemma LoopStops(c: Collaborators, tools: seq<Tool>, parse: string -> Directive, maxIterations: int, query: string, st: LoopState)
    requires st.iterations < maxIterations && Step(c, tools, parse, query, st).Stop?
    ensures Loop(c, tools, parse, maxIterations, query, st) == StopTrace(Step(c, tools, parse, query, st))
  {
  }

  lemma LoopContinues(c: Collaborators, tools: seq<Tool>, parse: string -> Directive, maxIterations: int, query: string, st: LoopState)
    requires st.iterations < maxIterations && Step(c, tools, parse, query, st).Continue?
    ensures Loop(c, tools, parse, maxIterations, query, st) == Loop(c, tools, parse, maxIterations, query, Step(c, tools, parse, query, st).state)
  {
  }

  /** One unfolding of the loop, through the two halves of the step. */
  lemma LoopStep(c: Collaborators, tools: seq<Tool>, parse: string -> Directive, maxIterations: int, query: string, st: LoopState)
    requires st.iterations < maxIterations
    ensures var r := Dispatch(c, tools, parse, Advance(c, tools, query, st));
      Loop(c, tools, parse, maxIterations, query, st) ==
        if r.Stop? then StopTrace(r) else Loop(c, tools, parse, maxIterations, query, r.state)
  {
  }

  /** One step keeps the invariant, or ends the loop as `LoopEnded` says. */
  lemma StepKeeps(c: Collaborators, tools: seq<Tool>, parse: string -> Directive, maxIterations: int, query: string, first: string, st: LoopState)
    requires LoopInvariant(maxIterations, first, st) && st.iterations < maxIterations
    ensures var r := Step(c, tools, parse, query, st);
      && (r.Stop? ==> LoopEnded(maxIterations, first, st, StopTrace(r)))
      && (r.Continue? ==> LoopInvariant(maxIterations, first, r.state))
  {
    var r := Step(c, tools, parse, query, st);
    if r.Stop? {
      StopEnds(maxIterations, first, st, r);
    } else {
      ContinueKeeps(maxIterations, first, st, r.state);
    }
  }

  lemma StopEnds(maxIterations: int, first: string, st: LoopState, r: StepResult)
    requires LoopInvariant(maxIterations, first, st) && st.iterations < maxIterations
    requires r.Stop? && r.state.context == st.context && r.state.observations == st.observations
    requires r.exit == Concluded || r.exit == ParseFailed
    requires r.outcome.ParseError? <==> r.exit == ParseFailed
    requires r.state.iterations == st.iterations + 1
    requires r.state.calls == if st.iterations == 0 then st.calls else st.calls + 1
    ensures LoopEnded(maxIterations, first, st, StopTrace(r))
  {
    assert r.state.context[..|st.context|] == st.context;
    assert r.state.observations[..|st.observations|] == st.observations;
  }

  lemma ContinueKeeps(maxIterations: int, first: string, st: LoopState, s: LoopState)
    requires LoopInvariant(maxIterations, first, st) && st.iterations < maxIterations
    requires s.iterations == st.iterations + 1
    requires s.calls == if st.iterations == 0 then st.calls else st.calls + 1
    requires |s.observations| == |st.observations| + 1
    requires s.observations[..|st.observations|] == st.observations
    requires s.context == st.context + [s.response]
    requires EndsWith(s.response, ObservationSuffix(s.observations[|st.observations|]))
    ensures LoopInvariant(maxIterations, first, s)
  {
    forall i | 0 <= i < |s.observations| ensures EndsWith(s.context[i + 1], ObservationSuffix(s.observations[i])) {
      if i < |st.observations| {
        assert s.context[i + 1] == st.context[i + 1];
        assert s.observations[i] == st.observations[i];
      }
    }
  }

  lemma {:induction false} LoopKeeps(c: Collaborators, tools: seq<Tool>, parse: string -> Directive, maxIterations: int, query: string,
                                     first: string, st: LoopState)
    requires LoopInvariant(maxIterations, first, st)
    ensures LoopEnded(maxIterations, first, st, Loop(c, tools, parse, maxIterations, query, st))
    decreases maxIterations - st.iterations
  {
    if st.iterations >= maxIterations {
      ExhaustedEnds(c, tools, parse, maxIterations, query, first, st);
    } else {
      var r := Step(c, tools, parse, query, st);
      StepKeeps(c, tools, parse, maxIterations, query, first, st);
      if r.Stop? {
        StoppedEnds(c, tools, parse, maxIterations, query, first, st);
      } else {
        LoopKeeps(c, tools, parse, maxIterations, query, first, r.state);
        ContinuedEnds(c, tools, parse, maxIterations, query, first, st);
      }
    }
  }

  /** Out of iterations, the loop ends with the fallback answer at once. */
  lemma ExhaustedEnds(c: Collaborators, tools: seq<Tool>, parse: string -> Directive, maxIterations: int, query: string,
                      first: string, st: LoopState)
    requires LoopInvariant(maxIterations, first, st) && st.iterations >= maxIterations
    ensures LoopEnded(maxIterations, first, st, Loop(c, tools, parse, maxIterations, query, st))
  {
    LoopExhausted(c, tools, parse, maxIterations, query, st);
    FallbackEnded(maxIterations, first, st);
  }

  /** The fallback trace of a state that has used up its iterations. */
  function FallbackTrace(st: LoopState): RunTrace {
    RunTrace(Answer(FallbackPrefix + Insights(st.context)), OutOfIterations,
             st.context, st.iterations, st.calls, st.observations)
  }

  lemma LoopExhausted(c: Collaborators, tools: seq<Tool>, parse: string -> Directive, maxIterations: int, query: string, st: LoopState)
    requires st.iterations >= maxIterations
    ensures Loop(c, tools, parse, maxIterations, query, st) == FallbackTrace(st)
  {
  }

  lemma FallbackEnded(maxIterations: int, first: string, st: LoopState)
    requires LoopInvariant(maxIterations, first, st) && st.iterations >= maxIterations
    ensures LoopEnded(maxIterations, first, st, FallbackTrace(st))
  {
    assert st.context[..|st.context|] == st.context;
    assert st.observations[..|st.observations|] == st.observations;
  }

  /** A loop whose next step stops ends with that step's trace. */
  lemma StoppedEnds(c: Collaborators, tools: seq<Tool>, parse: string -> Directive, maxIterations: int, query: string,
                    first: string, st: LoopState)
    requires st.iterations < maxIterations && Step(c, tools, parse, query, st).Stop?
    requires LoopEnded(maxIterations, first, st, StopTrace(Step(c, tools, parse, query, st)))
    ensures LoopEnded(maxIterations, first, st, Loop(c, tools, parse, maxIterations, query, st))
  {
    LoopStops(c, tools, parse, maxIterations, query, st);
  }

  /** A loop whose next step continues ends as the loop from the next state
      does, and that trace extends the current state too. */
  lemma ContinuedEnds(c: Collaborators, tools: seq<Tool>, parse: string -> Directive, maxIterations: int, query: string,
                      first: string, st: LoopState)
    requires st.iterations < maxIterations && Step(c, tools, parse, query, st).Continue?
    requires var s := Step(c, tools, parse, query, st).state;
      LoopEnded(maxIterations, first, s, Loop(c, tools, parse, maxIterations, query, s))
    ensures LoopEnded(maxIterations, first, st, Loop(c, tools, parse, maxIterations, query, st))
  {
    var s := Step(c, tools, parse, query, st).state;
    LoopContinues(c, tools, parse, maxIterations, query, st);
    EndedAfterStep(st, s, Loop(c, tools, parse, maxIterations, query, s));
  }

  /** A trace that extends the state after a dispatching step extends the
      state before it. */
  lemma EndedAfterStep(st: LoopState, s: LoopState, t: RunTrace)
    requires s.iterations == st.iterations + 1
    requires |st.context| <= |s.context| && s.context[..|st.context|] == st.context
    requires |st.observations| <= |s.observations| && s.observations[..|st.observations|] == st.observations
    requires Extends(s, t)
    ensures Extends(st, t)
  {
    assert t.context[..|st.context|] == t.context[..|s.context|][..|st.context|];
    assert t.observations[..|st.observations|] == t.observations[..|s.observations|][..|st.observations|];
  }

  /** The facts of `LoopEnded` for a whole run that did not take the chat
      fast path. */
  lemma RunKeeps(c: Collaborators, tools: seq<Tool>, maxIterations: int, query: string)
    requires !Contains(FirstResponse(c, tools, query), ChatResponseToken)
    ensures var first := FirstResponse(c, tools, query);
      LoopEnded(maxIterations, first, LoopState([first], first, 0, 1, []), RunSpec(c, tools, maxIterations, query))
  {
    var first := FirstResponse(c, tools, query);
    LoopKeeps(c, tools, ExtractToolCall, maxIterations, query, first, LoopState([first], first, 0, 1, []));
  }

  /** `run` calls the model at least once and at most `max(1, max_iterations)`
      times, and never iterates more than `max_iterations` times. */
  lemma CallBound(c: Collaborators, tools: seq<Tool>, maxIterations: int, query: string)
    ensures var t := RunSpec(c, tools, maxIterations, query);
      1 <= t.calls <= Max(1, maxIterations) && t.iterations <= Max(0, maxIterations)
  {
    if Contains(FirstResponse(c, tools, query), ChatResponseToken) {
      ChatFastPathAnswers(c, tools, maxIterations, query);
    } else {
      RunKeeps(c, tools, maxIterations, query);
    }
  }

  /** The context starts as the first response and gains one entry per
      dispatched tool call, each the response followed by
      `\nObservation: <result>\nThought:`; the chat fast path leaves it
      empty. */
  lemma ContextGrowth(c: Collaborators, tools: seq<Tool>, maxIterations: int, query: string)
    ensures var t := RunSpec(c, tools, maxIterations, query);
      && (t.exit == ChatFastPath <==> Contains(FirstResponse(c, tools, query), ChatResponseToken))
      && (t.exit == ChatFastPath ==> t.context == [] && t.observations == [])
      && (t.exit != ChatFastPath ==>
            && |t.context| == |t.observations| + 1
            && t.context[0] == FirstResponse(c, tools, query)
            && EntriesObserved(t.context, t.observations))
  {
    if !Contains(FirstResponse(c, tools, query), ChatResponseToken) {
      RunKeeps(c, tools, maxIterations, query);
    }
  }

  /** Running out of iterations is not an error: `run` then returns the
      fallback sentence followed by the insights of the full context, after
      exactly `max(0, max_iterations)` iterations. */
  lemma ExhaustionFallsBack(c: Collaborators, tools: seq<Tool>, maxIterations: int, query: string)
    ensures var t := RunSpec(c, tools, maxIterations, query);
      t.exit == OutOfIterations ==>
        && t.outcome == Answer(FallbackPrefix + Insights(t.context))
        && t.iterations == Max(0, maxIterations)
        && |t.context| == t.iterations + 1
  {
    if !Contains(FirstResponse(c, tools, query), ChatResponseToken) {
      RunKeeps(c, tools, maxIterations, query);
    }
  }

  /** A tool call that is neither named `Final Answer` nor `Chat Response`
      never ends the loop, whether the tool is unknown or raises: its error
      becomes the observation and the next iteration follows. */
  lemma SoftFailuresContinue(c: Collaborators, tools: seq<Tool>, query: string, st: LoopState)
    requires var d := ExtractToolCall(Advance(c, tools, query, st).response);
      d.ToolCall? && d.name != "Final Answer" && d.name != "Chat Response"
    ensures var response := Advance(c, tools, query, st).response;
      var d := ExtractToolCall(response);
      var observation := Observe(c, tools, st.iterations + 1, d.name, d.input);
      var r := Step(c, tools, ExtractToolCall, query, st);
      && r.Continue?
      && r.state.observations == st.observations + [observation]
      && r.state.context == st.context + [response + ObservationSuffix(observation)]
  {
  }

  /** A call named `Final Answer` or `Chat Response` ends the loop with its
      input as the answer, even when the response holds neither marker. */
  lemma NamedAnswerEnds(c: Collaborators, tools: seq<Tool>, query: string, st: LoopState)
    requires var d := ExtractToolCall(Advance(c, tools, query, st).response);
      d.ToolCall? && (d.name == "Final Answer" || d.name == "Chat Response")
    ensures var response := Advance(c, tools, query, st).response;
      var r := Step(c, tools, ExtractToolCall, query, st);
      && !Contains(response, FinalAnswerToken) && !Contains(response, ChatResponseToken)
      && r.Stop? && r.exit == Concluded && r.outcome == Answer(ExtractToolCall(response).input)
  {
  }

  /** A response of the loop that holds `Final Answer:` returns the stripped
      text after its first occurrence, whatever else the response says; one
      that holds `Chat Response:` but no final answer returns the text after
      that marker. The iteration ends with the context as it was. */
  lemma MarkerAnswerEnds(c: Collaborators, tools: seq<Tool>, query: string, st: LoopState)
    requires var response := Advance(c, tools, query, st).response;
      Contains(response, FinalAnswerToken) || Contains(response, ChatResponseToken)
    ensures var a := Advance(c, tools, query, st);
      var answer := if Contains(a.response, FinalAnswerToken) then ExtractFinalAnswer(a.response)
                    else ExtractChatResponse(a.response);
      && answer.Some?
      && Step(c, tools, ExtractToolCall, query, st) == Stop(Answer(answer.value), Concluded, a)
  {
  }

  /** A first response holding `Chat Response:` is answered at once with
      what `extract_chat_response` reads from it: the model is called once,
      no iteration runs and the context stays empty. */
  lemma ChatFastPathAnswers(c: Collaborators, tools: seq<Tool>, maxIterations: int, query: string)
    requires Contains(FirstResponse(c, tools, query), ChatResponseToken)
    ensures var t := RunSpec(c, tools, maxIterations, query);
      && t.exit == ChatFastPath
      && Some(t.outcome.text) == ExtractChatResponse(FirstResponse(c, tools, query))
      && t.outcome.Answer?
      && t.calls == 1 && t.iterations == 0 && t.context == [] && t.observations == []
  {
  }

  /** A response no parser tier accepts ends `run` with the `ValueError`
      that quotes it, leaving the context as it was. */
  lemma UnparseableStops(c: Collaborators, tools: seq<Tool>, query: string, st: LoopState)
    requires ExtractToolCall(Advance(c, tools, query, st).response).Unparseable?
    ensures var response := Advance(c, tools, query, st).response;
      var r := Step(c, tools, ExtractToolCall, query, st);
      && r.Stop? && r.exit == ParseFailed
      && r.outcome == ParseError(UnparseablePrefix + response)
      && r.state.context == st.context
  {
  }

  // ---------------------------------------------------------------------
  // The agent object
  // ---------------------------------------------------------------------

  /** `MinimalAgent`: its tool list and iteration bound. The model is passed
      to `Run` with the other collaborators. */
  class MinimalAgent {
    var tools: seq<Tool>
    var maxIterations: int

    constructor (tools: seq<Tool>, maxIterations: int)
      ensures this.tools == tools && this.maxIterations == maxIterations
    {
      this.tools := tools;
      this.maxIterations := maxIterations;
    }

    /** `MinimalAgent.create`: the given tools and the default bound. */
    constructor Create(tools: seq<Tool>)
      ensures this.tools == tools && this.maxIterations == DefaultMaxIterations
    {
      this.tools := tools;
      this.maxIterations := DefaultMaxIterations;
    }

    /** `add_tool`: appends the tool at the end of the list. */
    method AddTool(tool: Tool)
      modifies this
      ensures tools == old(tools) + [tool]
      ensures maxIterations == old(maxIterations)
    {
      tools := tools + [tool];
    }

    /** `remove_tool`: keeps every tool of another name, in order, and
      reports whether the list got shorter, that is, whether any tool had
      the name. */
    method RemoveTool(toolName: string) returns (removed: bool)
      modifies this
      ensures tools == WithoutTool(old(tools), toolName)
      ensures removed <==> exists i :: 0 <= i < |old(tools)| && old(tools)[i].name == toolName
      ensures maxIterations == old(maxIterations)
    {
      var originalCount := |tools|;
      WithoutToolShrinks(tools, toolName);
      tools := WithoutTool(tools, toolName);
      removed := |tools| < originalCount;
    }

    /** `Observe` as the loop body computes it (agent.py:118-141): runs the
        tool a call names, turning an unknown name and a raised exception
        into error text. */
    static method Execute(c: Collaborators, tools: seq<Tool>, iteration: nat, toolName: string, toolInput: string)
      returns (toolResult: string)
      ensures toolResult == Observe(c, tools, iteration, toolName, toolInput)
    {
      var byName := ToolByName(tools);
      if toolName !in byName {
        var errorMsg := "Unknown tool: " + toolName + ". Available tools: " + ToolNames(tools);
        toolResult := "Error: " + errorMsg;
      } else {
        var tool := byName[toolName];
        match c.invoke(iteration, tool, toolInput)
        case Output(text) =>
          toolResult := text;
        case Raised(message) =>
          toolResult := "Error: " + message;
      }
    }

    /** `Act` for the agent's own parser, as the loop body computes it
        (agent.py:101-141): parse the response and return its answer, or
        raise for an unparseable one, or run the named tool and hand back its
        observation. */
    static method ActOnResponse(c: Collaborators, tools: seq<Tool>, iteration: nat, response: string) returns (action: Action)
      ensures action == Act(c, tools, ExtractToolCall, iteration, response)
    {
      match ExtractToolCall(response)
      case Unparseable =>
        return Finish(ParseError(UnparseablePrefix + response));
      case FinalAnswer(answer) =>
        return Finish(Answer(answer));
      case ChatAnswer(answer) =>
        return Finish(Answer(answer));
      case ToolCall(toolName, toolInput) =>
        if toolName == "Final Answer" || toolName == "Chat Response" {
          return Finish(Answer(toolInput));
        }
        var toolResult := Execute(c, tools, iteration, toolName, toolInput);
        return Observed(toolResult);
    }

    /** `run`: returns what `RunSpec` says for the current tools and bound;
        `context` and `calls` are the loop's context list and the number of
        model calls when it returns. */
    method Run(query: string, c: Collaborators) returns (outcome: RunOutcome, ghost finalContext: seq<string>, ghost modelCalls: nat)
      ensures outcome == RunSpec(c, tools, maxIterations, query).outcome
      ensures finalContext == RunSpec(c, tools, maxIterations, query).context
      ensures modelCalls == RunSpec(c, tools, maxIterations, query).calls
    {
      var context: seq<string> := [];
      var iterations: nat := 0;
      var calls: nat := 0;
      var formattedPrompt := FormatPrompt(c, tools, query, context);
      var response := c.generate(calls, formattedPrompt, StopPatterns);
      calls := calls + 1;
      if Contains(response, ChatResponseToken) {
        var chatResponse := StripWs(SplitSecond(response, ChatResponseToken));
        return Answer(chatResponse), context, calls;
      }
      context := context + [response];
      ghost var observations: seq<string> := [];
      ghost var spec := RunSpec(c, tools, maxIterations, query);
      LoopEntry(c, tools, maxIterations, query, context, response, calls);
      while iterations < maxIterations
        invariant Loop(c, tools, ExtractToolCall, maxIterations, query, LoopState(context, response, iterations, calls, observations)) == spec
        decreases maxIterations - iterations
      {
        ghost var before := LoopState(context, response, iterations, calls, observations);
        iterations := iterations + 1;
        if iterations > 1 {
          formattedPrompt := FormatPrompt(c, tools, query, context);
          response := c.generate(calls, formattedPrompt, StopPatterns);
          calls := calls + 1;
        }
        ghost var advanced := LoopState(context, response, iterations, calls, observations);
        assert advanced == Advance(c, tools, query, before);
        LoopStep(c, tools, ExtractToolCall, maxIterations, query, before);
        var action := ActOnResponse(c, tools, iterations, response);
        match action
        case Finish(answer) =>
          return answer, context, calls;
        case Observed(toolResult) =>
          response := response + ObservationSuffix(toolResult);
          context := context + [response];
          observations := observations + [toolResult];
      }
      var insights := ExtractInsights(context);
      return Answer(FallbackPrefix + insights), context, calls;
    }
  }
}
