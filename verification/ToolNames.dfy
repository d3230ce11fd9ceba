/** How tool names are told apart and resolved (codex_shim/mcp_search.py, codex_shim/translate.py). */
module ToolNames {
  import opened Common

  lemma TailSlice(s: string, k: nat, n: nat)
    requires s != "" && k + n <= |s| - 1
    ensures s[1..][k..k + n] == s[k + 1..k + 1 + n]
  {
    var a, b := s[1..][k..k + n], s[k + 1..k + 1 + n];
    assert |a| == |b| && forall i :: 0 <= i < n ==> a[i] == b[i];
  }

  /** Where a part first occurs in a text. */
  function Find(s: string, part: string): (r: Option<nat>)
    ensures r.Some? ==> r.value + |part| <= |s| && s[r.value..r.value + |part|] == part
  {
    if part <= s then Some(0)
    else if s == "" then None
    else
      var rest := Find(s[1..], part);
      if rest.Some? then
        TailSlice(s, rest.value, |part|);
        Some(rest.value + 1)
      else None
  }

  /** `is_tool_search_call`. */
  predicate IsSearch(name: string) {
    name == "tool_search" || name == "tool_search_call"
  }

  /** `parse_mcp_function_name`: `mcp__<server>__<tool>`. */
  function McpFunctionName(name: string): Option<(string, string)> {
    if !("mcp__" <= name) then None
    else
      var body := name[5..];
      match Find(body, "__")
      case None => None
      case Some(n) => if body[..n] == "" || body[n + 2..] == "" then None else Some((body[..n], body[n + 2..]))
  }

  /** `parse_mcp_tool_reference`: also `mcp__<server>.<tool>`. */
  function McpReference(name: string): Option<(string, string)> {
    if McpFunctionName(name).Some? then McpFunctionName(name)
    else
      match Find(name, ".")
      case None => None
      case Some(n) =>
        if !("mcp__" <= name[..n]) || name[n + 1..] == "" || name[..n][5..] == "" then None
        else Some((name[..n][5..], name[n + 1..]))
  }

  /** `split_namespaced_tool_chat_name`. */
  function SplitName(name: string): (Option<string>, string) {
    if McpReference(name).Some? then (None, name)
    else
      match Find(name, ".")
      case None => (None, name)
      case Some(n) =>
        if name[..n] == "" || name[n + 1..] == "" then (None, name) else (Some(name[..n]), name[n + 1..])
  }

  /** `resolve_namespaced_tool_name`. */
  function Resolve(toolResolve: map<string, (Option<string>, string)>, name: string): (Option<string>, string) {
    if name in toolResolve then toolResolve[name] else SplitName(name)
  }

  /** Neither a tool search nor an MCP reference. */
  predicate IsPlain(name: string) {
    !IsSearch(name) && McpReference(name).None?
  }

  /** A plain name whose resolved form is a tool search or an MCP reference. */
  predicate Strays(toolResolve: map<string, (Option<string>, string)>, name: string) {
    IsPlain(name) && !IsPlain(Resolve(toolResolve, name).1)
  }

  /** A tool search whose name came with spaces around it. */
  predicate Padded(name: string) {
    IsSearch(Strip(name)) && !IsSearch(name)
  }

  lemma {:induction false} FirstUnderscores(before: string, after: string)
    requires '_' !in before
    ensures Find(before + "__" + after, "__") == Some(|before|)
  {
    var s := before + "__" + after;
    if before == "" {
      assert s == "__" + after;
    } else {
      assert s[1..] == before[1..] + "__" + after;
      FirstUnderscores(before[1..], after);
      assert s[0] == before[0];
    }
  }

  lemma {:induction false} NoUnderscores(s: string)
    requires '_' !in s
    ensures Find(s, "__") == None
  {
    if s != "" {
      NoUnderscores(s[1..]);
      assert s[0] in s;
    }
  }

  /** An MCP tool is named by its server and its tool with two underscores between them. */
  lemma McpNameMeans(server: string, tool: string)
    requires server != "" && tool != "" && '_' !in server
    ensures McpReference("mcp__" + server + "__" + tool) == Some((server, tool))
  {
    hide Find;
    var name := "mcp__" + server + "__" + tool;
    assert name[5..] == server + "__" + tool;
    FirstUnderscores(server, tool);
    assert name[5..][..|server|] == server && name[5..][|server| + 2..] == tool;
  }

  /** An MCP tool may also be named with a dot between its server and its tool. */
  lemma McpDottedMeans(server: string, tool: string)
    requires server != "" && tool != "" && '_' !in server + tool && '.' !in server
    ensures McpReference("mcp__" + server + "." + tool) == Some((server, tool))
  {
    hide Find;
    var before := "mcp__" + server;
    var name := before + "." + tool;
    assert name == "mcp__" + (server + "." + tool) && name[5..] == server + "." + tool;
    NoUnderscores(server + "." + tool);
    FirstDot(before, tool);
    assert name[..|before|] == before && name[|before| + 1..] == tool && before[5..] == server;
    assert "mcp__" + server + "." + tool == name;
  }

  /** Where the first dot of a name is. */
  lemma {:induction false} FirstDot(before: string, after: string)
    requires '.' !in before
    ensures Find(before + "." + after, ".") == Some(|before|)
  {
    var s := before + "." + after;
    if before == "" {
      assert s == "." + after;
    } else {
      assert s[1..] == before[1..] + "." + after;
      FirstDot(before[1..], after);
      assert s[0] == before[0];
    }
  }

  /** A tool search behind any namespace but an `mcp__` one strays, unless the table has its name. */
  lemma {:induction false} DottedSearchStrays(toolResolve: map<string, (Option<string>, string)>, namespace: string)
    requires namespace != "" && '.' !in namespace && !("mcp" <= namespace)
    requires namespace + ".tool_search" !in toolResolve
    ensures Strays(toolResolve, namespace + ".tool_search")
    ensures Resolve(toolResolve, namespace + ".tool_search") == (Some(namespace), "tool_search")
  {
    var name := namespace + ".tool_search";
    FirstDot(namespace, "tool_search");
    assert name == namespace + "." + "tool_search";
    assert name[|namespace|] == '.';
    assert name[..|namespace|] == namespace && name[|namespace| + 1..] == "tool_search";
    assert IsSearch("tool_search");
  }
}
