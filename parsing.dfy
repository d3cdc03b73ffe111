/** The protocol's marker tokens and the stand-alone extractors of
    minimal_agents/utils/parsing.py. Each regular expression the source uses
    is written out as the scan the regex engine performs: a leftmost search,
    then lazy groups that stop at the first position where the rest of the
    pattern (or the lookahead) succeeds. */
module Parsing {
  import opened Text

  const FinalAnswerToken := "Final Answer:"
  const ObservationToken := "Observation:"
  const ThoughtToken := "Thought:"
  const PlanToken := "Plan:"
  const ActionToken := "Action:"
  const ActionInputToken := "Action Input:"
  const ChatResponseToken := "Chat Response:"

  /** The literal head of both action patterns, `Action: ` with its space. */
  const ActionHead := "Action: "

  /** The characters `strip(" \n\"'")` removes from a tool input. */
  const InputTrim: set<char> := {' ', '\n', '"', '\''}

  const Newline: set<char> := {'\n'}

  // ---------------------------------------------------------------------
  // The common head of the two action patterns:
  //   Action: [\[]?(.*?)[\]]?[\n]*Action Input:[\s]*
  // ---------------------------------------------------------------------

  /** Where `Action Input:` has to start if the lazy name group ends at `e`:
      after one optional `]` and then the whole run of newlines (a shorter
      run would leave a newline where the `A` of the marker must be). */
  function MarkerAfterName(s: string, e: nat): (j: nat)
    requires e <= |s|
    ensures e <= j <= |s|
  {
    SkipRun(s, if e < |s| && s[e] == ']' then e + 1 else e, Newline)
  }

  /** The name group may end at `e`: the rest of the head matches from there. */
  predicate ClosesName(s: string, e: nat) {
    e <= |s| && OccursAt(s, ActionInputToken, MarkerAfterName(s, e))
  }

  /** The least end at or after `e` where the name group may close. */
  function FirstClose(s: string, e: nat, bound: nat): (r: nat)
    requires e <= bound && ClosesName(s, bound)
    ensures e <= r <= bound && ClosesName(s, r)
    ensures forall k :: e <= k < r ==> !ClosesName(s, k)
    decreases bound - e
  {
    if ClosesName(s, e) then e
    else
      var r := FirstClose(s, e + 1, bound);
      NoCloseBefore(s, e, r);
      r
  }

  lemma NoCloseBefore(s: string, e: nat, r: nat)
    requires !ClosesName(s, e)
    requires forall k :: e + 1 <= k < r ==> !ClosesName(s, k)
    ensures forall k :: e <= k < r ==> !ClosesName(s, k)
  {
  }

  /** Where the pieces of a successful head match lie in the text. */
  datatype ActionMatch = ActionMatch(nameStart: nat, nameEnd: nat, inputStart: nat)

  /** Any position where `Action Input:` starts closes the name group there. */
  lemma MarkerCloses(s: string, q: nat)
    requires OccursAt(s, ActionInputToken, q)
    ensures ClosesName(s, q)
  {
    assert s[q] == s[q..q + |ActionInputToken|][0] == 'A';
  }

  /** The name group, after an optional `[`, starts no later than the first
      `Action Input:` after the head, and may close there. */
  lemma NameBeforeMarker(s: string, afterHead: nat, q: nat)
    requires afterHead <= q && OccursAt(s, ActionInputToken, q)
    ensures (if afterHead < |s| && s[afterHead] == '[' then afterHead + 1 else afterHead) <= q
    ensures ClosesName(s, q)
  {
    MarkerCloses(s, q);
  }

  /** `re.search` of the head with DOTALL. The search succeeds exactly when
      the first `Action: ` is followed, somewhere after it, by `Action Input:`
      (a later `Action: ` has even fewer markers after it). The optional `[`
      is taken when present, the name ends at the first place where the rest
      of the head matches, and `[\s]*` then eats all following whitespace. */
  function MatchAction(s: string): (r: Option<ActionMatch>)
    ensures r.Some? <==>
      Contains(s, ActionHead) && FindFrom(s, ActionInputToken, IndexOf(s, ActionHead) + |ActionHead|).Some?
    ensures r.Some? ==>
      var afterHead := IndexOf(s, ActionHead) + |ActionHead|;
      var m := r.value;
      && m.nameStart == (if afterHead < |s| && s[afterHead] == '[' then afterHead + 1 else afterHead)
      && m.nameStart <= m.nameEnd
      && ClosesName(s, m.nameEnd)
      && (forall k :: m.nameStart <= k < m.nameEnd ==> !ClosesName(s, k))
      && m.inputStart == SkipRun(s, MarkerAfterName(s, m.nameEnd) + |ActionInputToken|, Whitespace)
  {
    if !Contains(s, ActionHead) then None
    else
      var afterHead := IndexOf(s, ActionHead) + |ActionHead|;
      match FindFrom(s, ActionInputToken, afterHead)
      case None => None
      case Some(q) => Some(HeadMatch(s, afterHead, q))
  }

  /** The head match once `Action: ` has ended at `afterHead` and the first
      `Action Input:` after it starts at `q`. */
  function HeadMatch(s: string, afterHead: nat, q: nat): (m: ActionMatch)
    requires afterHead <= q && OccursAt(s, ActionInputToken, q)
    ensures m.nameStart == (if afterHead < |s| && s[afterHead] == '[' then afterHead + 1 else afterHead)
    ensures m.nameStart <= m.nameEnd <= q
    ensures ClosesName(s, m.nameEnd)
    ensures forall k :: m.nameStart <= k < m.nameEnd ==> !ClosesName(s, k)
    ensures m.inputStart == SkipRun(s, MarkerAfterName(s, m.nameEnd) + |ActionInputToken|, Whitespace)
  {
    var g := if afterHead < |s| && s[afterHead] == '[' then afterHead + 1 else afterHead;
    NameBeforeMarker(s, afterHead, q);
    var e := FirstClose(s, g, q);
    ActionMatch(g, e, SkipRun(s, MarkerAfterName(s, e) + |ActionInputToken|, Whitespace))
  }

  /** The head match lies inside the text, its parts in order. */
  lemma MatchActionBounds(s: string)
    requires MatchAction(s).Some?
    ensures var m := MatchAction(s).value;
      m.nameStart <= m.nameEnd <= m.inputStart <= |s|
  {
  }

  // ---------------------------------------------------------------------
  // extract_tool_calls (parsing.py:15-33)
  // ---------------------------------------------------------------------

  /** The lookahead `(?=\n\s*Observation:)` succeeds at `k`. */
  predicate ObservationAhead(s: string, k: nat) {
    k < |s| && s[k] == '\n' && OccursAt(s, ObservationToken, SkipRun(s, k + 1, Whitespace))
  }

  /** The lazy input group `(.*?)` ends at the first position at or after
      `k` where an observation is ahead, or at the end of the text (`\Z`). */
  function InputEnd(s: string, k: nat): (r: nat)
    requires k <= |s|
    ensures k <= r <= |s|
    ensures r == |s| || ObservationAhead(s, r)
    ensures forall j :: k <= j < r ==> !ObservationAhead(s, j)
    decreases |s| - k
  {
    if k == |s| || ObservationAhead(s, k) then k else InputEnd(s, k + 1)
  }

  /** A newline directly followed by `Observation:` is an observation ahead. */
  lemma NewlineObservationAhead(s: string, k: nat)
    requires OccursAt(s, "\n" + ObservationToken, k)
    ensures ObservationAhead(s, k)
  {
    assert s[k] == s[k..k + 13][0];
    assert s[k + 1] == s[k..k + 13][1];
    assert SkipRun(s, k + 1, Whitespace) == k + 1;
    assert s[k + 1..k + 13] == s[k..k + 13][1..];
  }

  /** `extract_tool_calls`: `(None, None)` exactly when the pattern does not
      match; otherwise the whitespace-stripped name and the input, cut before
      the first `\n<whitespace>Observation:` and stripped of spaces,
      newlines and quotes only. */
  function ExtractToolCalls(text: string): (r: (Option<string>, Option<string>))
    ensures r.0.None? <==> MatchAction(text).None?
    ensures r.1.None? <==> MatchAction(text).None?
    ensures r.0.Some? ==>
      var m := MatchAction(text).value;
      r.0.value == StripWs(text[m.nameStart..m.nameEnd])
    ensures r.1.Some? ==>
      var m := MatchAction(text).value;
      var end := InputEnd(text, m.inputStart);
      && r.1.value == Strip(text[m.inputStart..end], InputTrim)
      && (end == |text| || ObservationAhead(text, end))
      && !Contains(r.1.value, "\n" + ObservationToken)
  {
    match MatchAction(text)
    case None => (None, None)
    case Some(m) =>
      MatchActionBounds(text);
      var end := InputEnd(text, m.inputStart);
      var raw := text[m.inputStart..end];
      forall k | m.inputStart <= k < end ensures !OccursAt(text, "\n" + ObservationToken, k) {
        if OccursAt(text, "\n" + ObservationToken, k) {
          NewlineObservationAhead(text, k);
        }
      }
      NoOccurrenceInSlice(text, m.inputStart, end, "\n" + ObservationToken);
      StripKeepsAbsent(raw, InputTrim, "\n" + ObservationToken);
      (Some(StripWs(text[m.nameStart..m.nameEnd])), Some(Strip(raw, InputTrim)))
  }

  // ---------------------------------------------------------------------
  // extract_final_answer and extract_chat_response (parsing.py:35-63)
  // ---------------------------------------------------------------------

  /** `text.split(marker)[1].strip()` when the marker is present. */
  function AnswerAfter(text: string, marker: string): (r: Option<string>)
    requires |marker| > 0
    ensures r.None? <==> !Contains(text, marker)
    ensures r.Some? ==> r.value == StripWs(SplitSecond(text, marker))
    ensures r.Some? ==> !Contains(r.value, marker)
  {
    if !Contains(text, marker) then None
    else
      StripKeepsAbsent(SplitSecond(text, marker), Whitespace, marker);
      Some(StripWs(SplitSecond(text, marker)))
  }

  /** `extract_final_answer`: None iff `Final Answer:` is absent, else the
      stripped text between its first and second occurrences (or the end). */
  function ExtractFinalAnswer(text: string): (r: Option<string>)
    ensures r.None? <==> !Contains(text, FinalAnswerToken)
    ensures r.Some? ==> r.value == StripWs(SplitSecond(text, FinalAnswerToken))
    ensures r.Some? ==> !Contains(r.value, FinalAnswerToken)
  {
    AnswerAfter(text, FinalAnswerToken)
  }

  /** `extract_chat_response`: the same for `Chat Response:`. */
  function ExtractChatResponse(text: string): (r: Option<string>)
    ensures r.None? <==> !Contains(text, ChatResponseToken)
    ensures r.Some? ==> r.value == StripWs(SplitSecond(text, ChatResponseToken))
    ensures r.Some? ==> !Contains(r.value, ChatResponseToken)
  {
    AnswerAfter(text, ChatResponseToken)
  }

  // ---------------------------------------------------------------------
  // re.findall of `<open>(.*?)(?=<stop>|...|$)` with DOTALL
  // ---------------------------------------------------------------------

  /** The lookahead `(?=stop1|stop2|...|$)` succeeds at `k`; without
      MULTILINE, `$` matches at the end and just before a final newline. */
  predicate StopsAt(s: string, stops: seq<string>, k: nat) {
    || k == |s|
    || (k + 1 == |s| && s[k] == '\n')
    || exists i :: 0 <= i < |stops| && OccursAt(s, stops[i], k)
  }

  /** The lazy group ends at the first position at or after `k` where the
      lookahead succeeds. */
  function SegmentEnd(s: string, stops: seq<string>, k: nat): (r: nat)
    requires k <= |s|
    ensures k <= r <= |s| && StopsAt(s, stops, r)
    ensures forall j :: k <= j < r ==> !StopsAt(s, stops, j)
    decreases |s| - k
  {
    if StopsAt(s, stops, k) then k else SegmentEnd(s, stops, k + 1)
  }

  /** Text that the lookahead never stops in holds no stop marker. */
  lemma SegmentHasNoStop(s: string, stops: seq<string>, start: nat, end: nat)
    requires start <= end <= |s|
    requires forall i :: 0 <= i < |stops| ==> |stops[i]| > 0
    requires forall j :: start <= j < end ==> !StopsAt(s, stops, j)
    ensures forall i :: 0 <= i < |stops| ==> !Contains(s[start..end], stops[i])
  {
    forall i | 0 <= i < |stops| ensures !Contains(s[start..end], stops[i]) {
      forall j | start <= j < end ensures !OccursAt(s, stops[i], j) {
        assert !StopsAt(s, stops, j);
      }
      NoOccurrenceInSlice(s, start, end, stops[i]);
    }
  }

  /** How many times `m` occurs at or after index `i`. */
  function CountFrom(s: string, m: string, i: nat): nat
    decreases |s| - i
  {
    if i + |m| > |s| then 0
    else (if OccursAt(s, m, i) then 1 else 0) + CountFrom(s, m, i + 1)
  }

  lemma CountBeyond(s: string, m: string, j: nat)
    requires j + |m| > |s|
    ensures CountFrom(s, m, j) == 0
  {
  }

  /** Counting from further on finds no more occurrences. */
  lemma {:induction false} CountMonotone(s: string, m: string, i: nat, j: nat)
    requires i <= j
    ensures CountFrom(s, m, j) <= CountFrom(s, m, i)
    decreases j - i
  {
    if i < j && i + |m| <= |s| {
      CountMonotone(s, m, i + 1, j);
    } else if i < j {
      CountBeyond(s, m, j);
    }
  }

  /** There is an occurrence at or after `i` exactly when the count from `i`
      is positive. */
  lemma {:induction false} CountPositiveIffFound(s: string, m: string, i: nat)
    ensures CountFrom(s, m, i) > 0 <==> FindFrom(s, m, i).Some?
    decreases |s| - i
  {
    if i + |m| <= |s| && !OccursAt(s, m, i) {
      CountPositiveIffFound(s, m, i + 1);
    }
  }

  /** No occurrence before `p` means counting from `i` counts from `p`. */
  lemma {:induction false} CountSkipTo(s: string, m: string, i: nat, p: nat)
    requires i <= p && p + |m| <= |s|
    requires forall k :: i <= k < p ==> !OccursAt(s, m, k)
    ensures CountFrom(s, m, i) == CountFrom(s, m, p)
    decreases p - i
  {
    if i < p {
      CountSkipTo(s, m, i + 1, p);
    }
  }

  /** `re.findall(open + "(.*?)(?=" + stops + "|$)", s[pos..], DOTALL)`: each
      match starts at the next occurrence of `open`, its group runs to the
      first stop (or the end), and the search resumes where the match ended.
      There are matches exactly when `open` occurs and never more matches
      than occurrences; `FindAllStep` and `FindAllNone` say which text each
      group holds, and `FindAllAvoidsStops` that none holds a stop marker. */
  function FindAll(s: string, open: string, stops: seq<string>, pos: nat): (r: seq<string>)
    requires |open| > 0 && pos <= |s|
    requires forall i :: 0 <= i < |stops| ==> |stops[i]| > 0
    ensures r == [] <==> CountFrom(s, open, pos) == 0
    ensures |r| <= CountFrom(s, open, pos)
    decreases |s| - pos
  {
    match FindFrom(s, open, pos)
    case None =>
      CountPositiveIffFound(s, open, pos);
      []
    case Some(p) =>
      var end := SegmentEnd(s, stops, p + |open|);
      var rest := FindAll(s, open, stops, end);
      FindAllCons(s, open, stops, pos, p, end, rest);
      [s[p + |open|..end]] + rest
  }

  /** A match at the first occurrence `p` in front of the matches after it
      keeps the count bound: the matches after it start beyond `p`. */
  lemma FindAllCons(s: string, open: string, stops: seq<string>, pos: nat, p: nat, end: nat, rest: seq<string>)
    requires |open| > 0 && FindFrom(s, open, pos) == Some(p)
    requires p + |open| <= |s| && end == SegmentEnd(s, stops, p + |open|)
    requires |rest| <= CountFrom(s, open, end)
    ensures 0 < 1 + |rest| <= CountFrom(s, open, pos)
  {
    CountSkipTo(s, open, pos, p);
    CountMonotone(s, open, p + 1, end);
  }

  /** No group of a `findall` contains a stop marker: the lazy group ends at
      the first place where one begins. */
  lemma {:induction false} FindAllAvoidsStops(s: string, open: string, stops: seq<string>, pos: nat)
    requires |open| > 0 && pos <= |s|
    requires forall i :: 0 <= i < |stops| ==> |stops[i]| > 0
    ensures forall j, i :: 0 <= j < |FindAll(s, open, stops, pos)| && 0 <= i < |stops| ==>
      !Contains(FindAll(s, open, stops, pos)[j], stops[i])
    decreases |s| - pos
  {
    var r := FindAll(s, open, stops, pos);
    match FindFrom(s, open, pos)
    case None =>
      assert r == [];
    case Some(p) =>
      var start := p + |open|;
      var end := SegmentEnd(s, stops, start);
      var rest := FindAll(s, open, stops, end);
      assert r == [s[start..end]] + rest;
      SegmentHasNoStop(s, stops, start, end);
      FindAllAvoidsStops(s, open, stops, end);
      forall j, i | 0 <= j < |r| && 0 <= i < |stops| ensures !Contains(r[j], stops[i]) {
        if j == 0 {
          assert r[j] == s[start..end];
        } else {
          assert r[j] == rest[j - 1];
        }
      }
  }

  /** The first group is the text after the first `open` at or after `pos`,
      up to the first stop after it, and the remaining groups are those found
      from that stop on (with `FindAllNone`, this fixes every group and their
      order). */
  lemma FindAllStep(s: string, open: string, stops: seq<string>, pos: nat)
    requires |open| > 0 && pos <= |s|
    requires forall i :: 0 <= i < |stops| ==> |stops[i]| > 0
    requires FindFrom(s, open, pos).Some?
    ensures var start := FindFrom(s, open, pos).value + |open|;
      var end := SegmentEnd(s, stops, start);
      FindAll(s, open, stops, pos) == [s[start..end]] + FindAll(s, open, stops, end)
  {
  }

  /** Without an `open` from `pos` on there is no group. */
  lemma FindAllNone(s: string, open: string, stops: seq<string>, pos: nat)
    requires |open| > 0 && pos <= |s|
    requires forall i :: 0 <= i < |stops| ==> |stops[i]| > 0
    requires FindFrom(s, open, pos).None?
    ensures FindAll(s, open, stops, pos) == []
  {
  }

  /** Stripping each group keeps every group free of the stop marker
      `stops[i]`. */
  lemma StrippedAvoid(raw: seq<string>, stops: seq<string>, i: nat)
    requires i < |stops|
    requires forall j, i :: 0 <= j < |raw| && 0 <= i < |stops| ==> !Contains(raw[j], stops[i])
    ensures forall j :: 0 <= j < |raw| ==> !Contains(StripEach(raw)[j], stops[i])
  {
    forall j | 0 <= j < |raw| ensures !Contains(StripEach(raw)[j], stops[i]) {
      StripKeepsAbsent(raw[j], Whitespace, stops[i]);
    }
  }

  /** `extract_observations`: the stripped text after each matched
      `Observation:` up to the next `Thought:` or the end, in text order. */
  function ExtractObservations(text: string): (r: seq<string>)
    ensures r == StripEach(FindAll(text, ObservationToken, [ThoughtToken], 0))
    ensures |r| <= CountFrom(text, ObservationToken, 0)
    ensures r == [] <==> !Contains(text, ObservationToken)
    ensures forall j :: 0 <= j < |r| ==> !Contains(r[j], ThoughtToken)
    ensures forall j :: 0 <= j < |r| ==> r[j] == StripWs(r[j])
  {
    var raw := FindAll(text, ObservationToken, [ThoughtToken], 0);
    CountPositiveIffFound(text, ObservationToken, 0);
    FindAllAvoidsStops(text, ObservationToken, [ThoughtToken], 0);
    forall j | 0 <= j < |raw| ensures !Contains(StripWs(raw[j]), ThoughtToken) && StripWs(raw[j]) == StripWs(StripWs(raw[j])) {
      assert !Contains(raw[j], [ThoughtToken][0]);
      StripKeepsAbsent(raw[j], Whitespace, ThoughtToken);
      StripWsIdempotent(raw[j]);
    }
    StripEach(raw)
  }

  /** `extract_thoughts`: the stripped text after each matched `Thought:` up
      to the next `Action:`, `Plan:` or `Final Answer:`, or the end. */
  function ExtractThoughts(text: string): (r: seq<string>)
    ensures r == StripEach(FindAll(text, ThoughtToken, [ActionToken, PlanToken, FinalAnswerToken], 0))
    ensures |r| <= CountFrom(text, ThoughtToken, 0)
    ensures r == [] <==> !Contains(text, ThoughtToken)
    ensures forall j :: 0 <= j < |r| ==>
      !Contains(r[j], ActionToken) && !Contains(r[j], PlanToken) && !Contains(r[j], FinalAnswerToken)
  {
    var stops := [ActionToken, PlanToken, FinalAnswerToken];
    var raw := FindAll(text, ThoughtToken, stops, 0);
    CountPositiveIffFound(text, ThoughtToken, 0);
    FindAllAvoidsStops(text, ThoughtToken, stops, 0);
    StrippedAvoid(raw, stops, 0);
    StrippedAvoid(raw, stops, 1);
    StrippedAvoid(raw, stops, 2);
    StripEach(raw)
  }
}
