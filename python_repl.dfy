/** The Python REPL tool (minimal_agents/tools/code/python_repl.py): the
    input is stripped and unwrapped from one Markdown code fence, executed in
    the tool's persistent namespace, and the captured output, a fixed
    success line or the error message is returned. */
module PythonRepl {
  import opened Text

  const PythonFence := "```python"
  const Fence := "```"
  const NoOutputMessage := "Code executed successfully (no output)."

  /** How many leading characters the fence check removes from the stripped
      input: a `python` fence takes precedence over a bare one. */
  function LeadingFence(s: string): (n: nat)
    ensures n <= |s|
    ensures n == 9 <==> StartsWith(s, PythonFence)
    ensures n == 3 <==> !StartsWith(s, PythonFence) && StartsWith(s, Fence)
    ensures n == 0 <==> !StartsWith(s, Fence)
  {
    if StartsWith(s, PythonFence) then
      assert s[..3] == s[..9][..3];
      9
    else if StartsWith(s, Fence) then 3
    else 0
  }

  /** `code[:-3]` when the code ends with a fence. */
  function WithoutTrailingFence(code: string): (r: string)
    ensures |r| <= |code| && r == code[..|r|]
    ensures EndsWith(code, Fence) ==> |r| + 3 == |code|
    ensures !EndsWith(code, Fence) ==> r == code
  {
    if EndsWith(code, Fence) then code[..|code| - 3] else code
  }

  /** The code `run` executes: the stripped input without one leading fence
      and then without one trailing fence. It is a slice of the stripped
      input that starts after the leading fence and runs to its end, or to
      three characters before the end exactly when what follows the leading
      fence ends with a fence. */
  function Unfenced(input: string): (code: string)
    ensures var s := StripWs(input);
      var a := LeadingFence(s);
      && a + |code| <= |s|
      && code == s[a..a + |code|]
      && (EndsWith(s[a..], Fence) ==> |s| == a + |code| + 3)
      && (!EndsWith(s[a..], Fence) ==> |s| == a + |code|)
  {
    var s := StripWs(input);
    var a := LeadingFence(s);
    var rest := s[a..];
    var code := WithoutTrailingFence(rest);
    assert |rest| == |s| - a;
    PrefixOfSuffix(s, a, code);
    code
  }

  lemma PrefixOfSuffix(s: string, a: nat, code: string)
    requires a <= |s| && |code| <= |s| - a && code == s[a..][..|code|]
    ensures code == s[a..a + |code|]
  {
  }

  /** `run`'s input cleaning (python_repl.py:42-51): the local `code` is
      rewritten step by step. */
  method CleanCode(inputText: string) returns (code: string)
    ensures code == Unfenced(inputText)
  {
    code := StripWs(inputText);
    ghost var cut := LeadingFence(code);
    if StartsWith(code, PythonFence) {
      code := code[9..];
    } else if StartsWith(code, Fence) {
      code := code[3..];
    }
    ghost var rest := code;
    if EndsWith(code, Fence) {
      code := code[..|code| - 3];
    }
    assert code == WithoutTrailingFence(rest);
    UnfencedSteps(inputText);
  }

  /** `Unfenced` as the two cuts in a row. */
  lemma UnfencedSteps(input: string)
    ensures var s := StripWs(input);
      Unfenced(input) == WithoutTrailingFence(s[LeadingFence(s)..])
  {
  }

  /** A string that begins and ends with a non-whitespace character is its
      own strip. */
  lemma StripFenced(s: string)
    requires s != [] && s[0] !in Whitespace && s[|s| - 1] !in Whitespace
    ensures StripWs(s) == s
  {
    assert TrimLeft(s, Whitespace) == s;
    assert TrimRight(s, Whitespace) == s;
  }

  /** The pieces of `open + body + close`. */
  lemma Unwrap(open: string, body: string, close: string)
    ensures var s := open + body + close;
      && s[..|open|] == open
      && s[|open|..] == body + close
      && (body + close)[..|body|] == body
      && (body + close)[|body|..] == close
  {
    var s := open + body + close;
    assert s == open + (body + close);
  }

  /** A block fenced as ```` ```python ... ``` ```` runs exactly its body,
      whatever the body is. */
  lemma PythonFenceRoundTrip(body: string)
    ensures Unfenced(PythonFence + body + Fence) == body
  {
    var s := PythonFence + body + Fence;
    Unwrap(PythonFence, body, Fence);
    assert s[0] == '`' && s[|s| - 1] == '`';
    StripFenced(s);
    assert LeadingFence(s) == 9;
    assert WithoutTrailingFence(body + Fence) == body;
  }

  /** The language tag that distinguishes the two fences. */
  lemma PythonFenceSplits()
    ensures PythonFence == Fence + "python"
  {
  }

  /** After a bare fence, a body that does not start with the tag `python`
      leaves the text without a `python` fence. */
  lemma NoTagAfterFence(body: string)
    requires !StartsWith(body, "python")
    ensures !StartsWith(Fence + body + Fence, PythonFence)
  {
    var s := Fence + body + Fence;
    if |s| >= 9 {
      PythonFenceSplits();
      var j: nat;
      if |body| >= 6 {
        assert body[..6] != "python";
        j :| j < 6 && body[..6][j] != "python"[j];
        assert s[3 + j] == body[j];
      } else {
        j := |body|;
        assert s[3 + j] == '`';
      }
      assert PythonFence[3 + j] == "python"[j];
      assert s[..9][3 + j] != PythonFence[3 + j];
    }
  }

  /** A block fenced with bare ```` ``` ```` runs exactly its body, unless the
      body itself begins with `python`, which is then read as the fence's
      language tag. */
  lemma BareFenceRoundTrip(body: string)
    requires !StartsWith(body, "python")
    ensures Unfenced(Fence + body + Fence) == body
  {
    var s := Fence + body + Fence;
    Unwrap(Fence, body, Fence);
    assert s[0] == '`' && s[|s| - 1] == '`';
    StripFenced(s);
    NoTagAfterFence(body);
    assert LeadingFence(s) == 3;
    assert WithoutTrailingFence(body + Fence) == body;
  }

  /** Code without fences reaches `exec` as its strip. */
  lemma UnfencedPassesThrough(input: string)
    requires !StartsWith(StripWs(input), Fence) && !EndsWith(StripWs(input), Fence)
    ensures Unfenced(input) == StripWs(input)
  {
    var s := StripWs(input);
    assert s[0..] == s;
  }

  /** What executing the code gives: the captured standard output, or the
      message of the exception it raised. */
  datatype ExecResult = Completed(stdout: string) | Failed(message: string)

  /** The text `run` returns for an execution (python_repl.py:61-70): a
      non-blank output verbatim, the success line for a blank one, and
      `Error: <message>` for an exception. */
  function Reply(result: ExecResult): (r: string)
    ensures result.Completed? && !IsBlank(result.stdout) ==> r == result.stdout
    ensures result.Completed? && IsBlank(result.stdout) ==> r == NoOutputMessage
    ensures result.Failed? ==> r == "Error: " + result.message
  {
    match result
    case Completed(stdout) =>
      StripWsEmptyIffBlank(stdout);
      if StripWs(stdout) != [] then stdout else NoOutputMessage
    case Failed(message) => "Error: " + message
  }

  /** The agent always receives some visible text from the tool. */
  lemma ReplyNeverBlank(result: ExecResult)
    ensures !IsBlank(Reply(result))
  {
    var r := Reply(result);
    if result.Completed? && IsBlank(result.stdout) {
      assert r[0] == 'C';
    } else if result.Failed? {
      assert r[0] == 'E';
    }
  }

  /** The tool object. Its namespace persists from one run to the next, so
      what a run does depends on the code run before it: the model keeps
      that code, in order, as `history`. */
  class PythonReplTool {
    var history: seq<string>

    constructor()
      ensures history == []
    {
      history := [];
    }

    /** `run`: clean the input, execute it in the namespace left by the
        earlier runs (`exec` is given that code and the new code) and reply. */
    method Run(inputText: string, exec: (seq<string>, string) -> ExecResult) returns (output: string)
      modifies this
      ensures history == old(history) + [Unfenced(inputText)]
      ensures output == Reply(exec(old(history), Unfenced(inputText)))
    {
      var code := CleanCode(inputText);
      var result := exec(history, code);
      history := history + [code];
      output := Reply(result);
    }
  }
}
