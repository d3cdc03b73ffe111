/** The agent's tool list (minimal_agents/agent.py:42-55, 244-263): an
    ordered list of tools, rendered for the prompt, looked up by name through
    a dictionary in which the last tool of a name wins, and filtered on
    removal. */
module Registry {
  import opened Text

  /** What the agent sees of a tool: its name and description. What running
      it does is a collaborator of the controller. */
  datatype Tool = Tool(name: string, description: string)

  /** One prompt line per tool: `name: description`. */
  function DescriptionLine(t: Tool): string {
    t.name + ": " + t.description
  }

  /** `tool_descriptions`: the lines in list order, joined by newlines. */
  function ToolDescriptions(tools: seq<Tool>): (r: string)
    ensures tools == [] ==> r == []
    ensures |tools| == 1 ==> r == DescriptionLine(tools[0])
  {
    Join(Lines(tools), "\n")
  }

  /** Tool `i`'s line stands in the descriptions where the `i` lines and
      separators before it end. */
  lemma DescriptionListed(tools: seq<Tool>, i: nat)
    requires i < |tools|
    ensures var start := Offset(Lines(tools), "\n", i);
      var line := DescriptionLine(tools[i]);
      start + |line| <= |ToolDescriptions(tools)| && ToolDescriptions(tools)[start..start + |line|] == line
  {
    JoinAt(Lines(tools), "\n", i);
  }

  function Lines(tools: seq<Tool>): (r: seq<string>)
    ensures |r| == |tools| && forall i :: 0 <= i < |tools| ==> r[i] == DescriptionLine(tools[i])
  {
    seq(|tools|, i requires 0 <= i < |tools| => DescriptionLine(tools[i]))
  }

  function Names(tools: seq<Tool>): (r: seq<string>)
    ensures |r| == |tools| && forall i :: 0 <= i < |tools| ==> r[i] == tools[i].name
  {
    seq(|tools|, i requires 0 <= i < |tools| => tools[i].name)
  }

  /** `tool_names`: the names in list order, joined by `, `. */
  function ToolNames(tools: seq<Tool>): (r: string)
    ensures tools == [] ==> r == []
    ensures |tools| == 1 ==> r == tools[0].name
  {
    Join(Names(tools), ", ")
  }

  /** Tool `i`'s name stands in the name list after the `i` names and
      separators before it. */
  lemma NameListed(tools: seq<Tool>, i: nat)
    requires i < |tools|
    ensures var start := Offset(Names(tools), ", ", i);
      start + |tools[i].name| <= |ToolNames(tools)| && ToolNames(tools)[start..start + |tools[i].name|] == tools[i].name
  {
    JoinAt(Names(tools), ", ", i);
  }

  /** No tool after index `i` carries the name of tool `i`. */
  predicate LastOfName(tools: seq<Tool>, i: nat)
    requires i < |tools|
  {
    forall j :: i < j < |tools| ==> tools[j].name != tools[i].name
  }

  /** `tool_by_name`: `{tool.name: tool for tool in tools}`. Its keys are the
      names in the list, and a name shared by several tools maps to the last
      of them, since later entries of the comprehension overwrite earlier. */
  function ToolByName(tools: seq<Tool>): (r: map<string, Tool>)
    ensures forall name :: name in r <==> exists t :: t in tools && t.name == name
    ensures forall i :: 0 <= i < |tools| && LastOfName(tools, i) ==> r[tools[i].name] == tools[i]
  {
    if tools == [] then map[]
    else
      var init := tools[..|tools| - 1];
      var last := tools[|tools| - 1];
      assert tools == init + [last];
      var r := ToolByName(init)[last.name := last];
      LastWinsStep(init, last, ToolByName(init));
      r
  }

  /** The step of the comprehension that enters `last` into the dictionary
      built from `init`. */
  lemma LastWinsStep(init: seq<Tool>, last: Tool, m: map<string, Tool>)
    requires forall name :: name in m <==> exists t :: t in init && t.name == name
    requires forall i :: 0 <= i < |init| && LastOfName(init, i) ==> m[init[i].name] == init[i]
    ensures var tools := init + [last];
      var r := m[last.name := last];
      && (forall name :: name in r <==> exists t :: t in tools && t.name == name)
      && (forall i :: 0 <= i < |tools| && LastOfName(tools, i) ==> r[tools[i].name] == tools[i])
  {
    var tools := init + [last];
    var r := m[last.name := last];
    forall i | 0 <= i < |tools| && LastOfName(tools, i) ensures r[tools[i].name] == tools[i] {
      if i < |init| {
        assert tools[i] == init[i];
        assert tools[|init|] == last;
        assert LastOfName(init, i) by {
          forall j | i < j < |init| ensures init[j].name != init[i].name {
            assert tools[j] == init[j];
          }
        }
      }
    }
  }

  /** `[tool for tool in tools if tool.name != name]`. */
  function WithoutTool(tools: seq<Tool>, name: string): (r: seq<Tool>)
    ensures |r| <= |tools|
    ensures forall t :: t in r <==> t in tools && t.name != name
  {
    if tools == [] then []
    else
      var rest := WithoutTool(tools[1..], name);
      assert forall t :: t in tools <==> t == tools[0] || t in tools[1..];
      if tools[0].name == name then rest else [tools[0]] + rest
  }

  /** Filtering a concatenation filters each part and keeps their order. */
  lemma {:induction false} WithoutToolAppend(a: seq<Tool>, b: seq<Tool>, name: string)
    ensures WithoutTool(a + b, name) == WithoutTool(a, name) + WithoutTool(b, name)
    decreases |a|
  {
    if a == [] {
      assert a + b == b;
    } else {
      assert (a + b)[1..] == a[1..] + b;
      WithoutToolAppend(a[1..], b, name);
    }
  }

  /** The filter keeps exactly the tools of other names: its result is shorter
      than the list if and only if some tool has the name. */
  lemma {:induction false} WithoutToolShrinks(tools: seq<Tool>, name: string)
    ensures |WithoutTool(tools, name)| < |tools| <==> exists i :: 0 <= i < |tools| && tools[i].name == name
  {
    if tools != [] {
      WithoutToolShrinks(tools[1..], name);
      if exists i :: 0 <= i < |tools[1..]| && tools[1..][i].name == name {
        var i :| 0 <= i < |tools[1..]| && tools[1..][i].name == name;
        assert tools[i + 1].name == name;
      }
      if exists i :: 0 <= i < |tools| && tools[i].name == name {
        var i :| 0 <= i < |tools| && tools[i].name == name;
        if i > 0 {
          assert tools[1..][i - 1].name == name;
        }
      }
    }
  }

  /** An appended tool is what its name now resolves to. */
  lemma AppendedToolWins(tools: seq<Tool>, t: Tool)
    ensures ToolByName(tools + [t])[t.name] == t
  {
  }

  /** Appending a tool appends its name to the rendered name list. */
  lemma AppendedToolNamed(tools: seq<Tool>, t: Tool)
    requires tools != []
    ensures ToolNames(tools + [t]) == ToolNames(tools) + ", " + t.name
    ensures ToolDescriptions(tools + [t]) == ToolDescriptions(tools) + "\n" + DescriptionLine(t)
  {
    assert Names(tools + [t])[..|tools|] == Names(tools);
    assert Lines(tools + [t])[..|tools|] == Lines(tools);
  }
}
