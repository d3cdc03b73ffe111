/** `MinimalAgent._extract_tool_call` (minimal_agents/agent.py:179-220):
    one model response becomes one directive. The markers are tried in a
    fixed order and the first that applies decides: `Final Answer:`, then
    `Chat Response:`, then the strict action pattern, then a looser split on
    the two action markers; a response that fits none of them is the error
    the source raises as `ValueError`. */
module ResponseParser {
  import opened Text
  import opened Parsing

  /** The closed set of meanings a response can have. The source returns the
      pairs `("Final Answer", x)`, `("Chat Response", x)` and `(name, input)`,
      and raises for the last case. */
  datatype Directive =
    | FinalAnswer(answer: string)
    | ChatAnswer(answer: string)
    | ToolCall(name: string, input: string)
    | Unparseable

  /** The strict pattern of agent.py:199, whose input group `(.*)` runs to the
      end of the text, stripped of spaces, newlines and quotes only. */
  function StrictCall(response: string): (r: Option<(string, string)>)
    ensures r.Some? <==> MatchAction(response).Some?
    ensures r.Some? ==>
      var m := MatchAction(response).value;
      && m.inputStart <= |response|
      && r.value.0 == StripWs(response[m.nameStart..m.nameEnd])
      && r.value.1 == Strip(response[m.inputStart..], InputTrim)
  {
    match MatchAction(response)
    case None => None
    case Some(m) =>
      MatchActionBounds(response);
      Some((StripWs(response[m.nameStart..m.nameEnd]), Strip(response[m.inputStart..], InputTrim)))
  }

  /** The looser split of agent.py:204-211, applicable when both `Action:` and
      `Action Input:` occur: the name is the first line after the first
      `Action:`, and the input is the text between the first and second
      `Action Input:`, cut at the first `Observation:`. Both are stripped. */
  function LooseCall(response: string): (r: Option<(string, string)>)
    ensures r.Some? <==> Contains(response, ActionToken) && Contains(response, ActionInputToken)
    ensures r.Some? ==> !Contains(r.value.0, "\n") && r.value.0 == StripWs(r.value.0)
    ensures r.Some? ==> !Contains(r.value.1, ObservationToken) && !Contains(r.value.1, ActionInputToken)
    ensures r.Some? ==> r.value.0 == StripWs(SplitFirst(SplitSecond(response, ActionToken), "\n"))
    ensures r.Some? ==> r.value.1 == StripWs(SplitFirst(SplitSecond(response, ActionInputToken), ObservationToken))
  {
    if Contains(response, ActionToken) && Contains(response, ActionInputToken) then
      var line := SplitFirst(SplitSecond(response, ActionToken), "\n");
      var actionPart := StripWs(line);
      StripKeepsAbsent(line, Whitespace, "\n");
      StripWsIdempotent(line);
      var afterInput := SplitSecond(response, ActionInputToken);
      var inputPart :=
        if Contains(response, ObservationToken) then StripWs(SplitFirst(afterInput, ObservationToken))
        else StripWs(afterInput);
      InputPartClean(response);
      Some((actionPart, inputPart))
    else
      None
  }

  /** The two branches of the input computation pick the same text when the
      response holds no `Observation:`, and the result never holds either
      marker. */
  lemma InputPartClean(response: string)
    requires Contains(response, ActionInputToken)
    ensures var afterInput := SplitSecond(response, ActionInputToken);
      && (!Contains(response, ObservationToken) ==> SplitFirst(afterInput, ObservationToken) == afterInput)
      && !Contains(StripWs(SplitFirst(afterInput, ObservationToken)), ObservationToken)
      && !Contains(StripWs(SplitFirst(afterInput, ObservationToken)), ActionInputToken)
      && (!Contains(response, ObservationToken) ==> !Contains(StripWs(afterInput), ObservationToken))
      && !Contains(StripWs(afterInput), ActionInputToken)
  {
    var afterInput := SplitSecond(response, ActionInputToken);
    var start := IndexOf(response, ActionInputToken) + |ActionInputToken|;
    var head := SplitFirst(afterInput, ObservationToken);
    if !Contains(response, ObservationToken) {
      if Contains(afterInput, ObservationToken) {
        ContainsSlice(response, start, start + |afterInput|, ObservationToken);
      }
      StripKeepsAbsent(afterInput, Whitespace, ObservationToken);
    }
    StripKeepsAbsent(head, Whitespace, ObservationToken);
    if Contains(head, ActionInputToken) {
      ContainsSlice(afterInput, 0, |head|, ActionInputToken);
    }
    StripKeepsAbsent(head, Whitespace, ActionInputToken);
    StripKeepsAbsent(afterInput, Whitespace, ActionInputToken);
  }

  /** A strict match implies both markers the loose split needs: `Action: `
      begins with `Action:`. */
  lemma StrictImpliesMarkers(response: string)
    requires MatchAction(response).Some?
    ensures Contains(response, ActionToken) && Contains(response, ActionInputToken)
  {
    var p := IndexOf(response, ActionHead);
    assert response[p..p + |ActionToken|] == response[p..p + |ActionHead|][..|ActionToken|];
    assert OccursAt(response, ActionToken, p);
    ContainsIff(response, ActionToken);
    var q := FindFrom(response, ActionInputToken, p + |ActionHead|).value;
    ContainsIff(response, ActionInputToken);
  }

  /** `_extract_tool_call`. */
  function ExtractToolCall(response: string): (d: Directive)
    ensures d.FinalAnswer? <==> Contains(response, FinalAnswerToken)
    ensures d.ChatAnswer? <==> !Contains(response, FinalAnswerToken) && Contains(response, ChatResponseToken)
    ensures d.Unparseable? <==>
      && !Contains(response, FinalAnswerToken)
      && !Contains(response, ChatResponseToken)
      && !(Contains(response, ActionToken) && Contains(response, ActionInputToken))
    ensures d.FinalAnswer? ==> Some(d.answer) == ExtractFinalAnswer(response)
    ensures d.ChatAnswer? ==> Some(d.answer) == ExtractChatResponse(response)
    ensures d.ToolCall? ==> d.name == StripWs(d.name)
    ensures d.ToolCall? && MatchAction(response).Some? ==> (d.name, d.input) == StrictCall(response).value
    ensures d.ToolCall? && MatchAction(response).None? ==> (d.name, d.input) == LooseCall(response).value
  {
    if Contains(response, FinalAnswerToken) then
      FinalAnswer(StripWs(SplitSecond(response, FinalAnswerToken)))
    else if Contains(response, ChatResponseToken) then
      ChatAnswer(StripWs(SplitSecond(response, ChatResponseToken)))
    else
      match StrictCall(response)
      case Some(call) =>
        StrictImpliesMarkers(response);
        StripWsIdempotent(response[MatchAction(response).value.nameStart..MatchAction(response).value.nameEnd]);
        ToolCall(call.0, call.1)
      case None =>
        match LooseCall(response)
        case Some(call) => ToolCall(call.0, call.1)
        case None => Unparseable
  }

  /** Where the strict pattern matches and no `\n<whitespace>Observation:`
      follows the input, the agent's parser and `extract_tool_calls` of
      minimal_agents/utils/parsing.py read the same call. */
  lemma StrictAgreesWithHelper(response: string)
    requires !Contains(response, FinalAnswerToken) && !Contains(response, ChatResponseToken)
    requires MatchAction(response).Some?
    requires InputEnd(response, MatchAction(response).value.inputStart) == |response|
    ensures var calls := ExtractToolCalls(response);
      ExtractToolCall(response) == ToolCall(calls.0.value, calls.1.value)
  {
    StrictDirective(response);
    HelperReadsStrict(response);
  }

  lemma StrictDirective(response: string)
    requires !Contains(response, FinalAnswerToken) && !Contains(response, ChatResponseToken)
    requires MatchAction(response).Some?
    ensures ExtractToolCall(response) == ToolCall(StrictCall(response).value.0, StrictCall(response).value.1)
  {
    StrictImpliesMarkers(response);
  }

  lemma HelperReadsStrict(response: string)
    requires MatchAction(response).Some?
    requires InputEnd(response, MatchAction(response).value.inputStart) == |response|
    ensures ExtractToolCalls(response) == (Some(StrictCall(response).value.0), Some(StrictCall(response).value.1))
  {
    SliceToEnd(response, MatchAction(response).value.inputStart);
  }

  lemma SliceToEnd(s: string, i: nat)
    requires i <= |s|
    ensures s[i..|s|] == s[i..]
  {
  }
}
