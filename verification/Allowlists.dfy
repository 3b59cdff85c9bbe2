/** The tool allowlist: server-wide and project entries, edited in place and merged with the configured ones. */
module Allowlists {
  import Text

  /** Server-wide tools by server, and project tools by project and server. Keys are as stored, not trimmed. */
  datatype Allowlist = Allowlist(
    serverTools: map<string, seq<string>>, projectTools: map<string, map<string, seq<string>>>)

  const NO_ENTRIES := Allowlist(map[], map[])

  ghost predicate ContainsString(values: seq<string>, target: string) {
    exists i :: 0 <= i < |values| && Text.TrimSpace(values[i]) == target
  }

  /** The tools under one key; the empty project stands for the server-wide scope. */
  function Listed(a: Allowlist, project: string, server: string): seq<string> {
    if project == "" then if server in a.serverTools then a.serverTools[server] else []
    else if project in a.projectTools && server in a.projectTools[project] then a.projectTools[project][server]
    else []
  }

  ghost predicate Has(a: Allowlist, project: string, server: string, tool: string) {
    ContainsString(Listed(a, project, server), tool)
  }

  /** The question the firewall asks: a server-wide entry, or one for a named project. */
  ghost predicate Allowlisted(a: Allowlist, server: string, project: string, tool: string) {
    var s, p, t := Text.TrimSpace(server), Text.TrimSpace(project), Text.TrimSpace(tool);
    Has(a, "", s, t) || (p != "" && Has(a, p, s, t))
  }

  /** The entry (project, server, tool) in trimmed form. */
  predicate Names(project: string, server: string, tool: string, p: string, s: string, t: string) {
    Text.TrimSpace(project) == p && Text.TrimSpace(server) == s && Text.TrimSpace(tool) == t
  }

  function WithoutTool(values: seq<string>, tool: string): seq<string> {
    if values == [] then []
    else (if Text.TrimSpace(values[0]) != tool then [values[0]] else []) + WithoutTool(values[1..], tool)
  }

  lemma WithoutToolFrom(values: seq<string>, i: nat, tool: string)
    requires i < |values|
    ensures WithoutTool(values[i..], tool) ==
            (if Text.TrimSpace(values[i]) != tool then [values[i]] else []) + WithoutTool(values[i + 1..], tool)
  {
    assert values[i..][1..] == values[i + 1..];
  }

  ghost function Added(a: Allowlist, server: string, project: string, tool: string): Allowlist {
    var s, p, t := Text.TrimSpace(server), Text.TrimSpace(project), Text.TrimSpace(tool);
    if t == "" then a
    else if p == "" then
      if Has(a, p, s, t) then a else a.(serverTools := a.serverTools[s := Listed(a, p, s) + [t]])
    else
      if Has(a, p, s, t) then a
      else
        var servers := if p in a.projectTools then a.projectTools[p] else map[];
        a.(projectTools := a.projectTools[p := servers[s := Listed(a, p, s) + [t]]])
  }

  function Removed(a: Allowlist, server: string, project: string, tool: string): Allowlist {
    var s, p, t := Text.TrimSpace(server), Text.TrimSpace(project), Text.TrimSpace(tool);
    if p == "" then a.(serverTools := a.serverTools[s := WithoutTool(Listed(a, p, s), t)])
    else if p !in a.projectTools then a
    else a.(projectTools := a.projectTools[p := a.projectTools[p][s := WithoutTool(Listed(a, p, s), t)]])
  }

  lemma AppendContains(values: seq<string>, tool: string, t: string)
    ensures ContainsString(values + [tool], t) <==> ContainsString(values, t) || Text.TrimSpace(tool) == t
  {
    if ContainsString(values, t) {
      var i :| 0 <= i < |values| && Text.TrimSpace(values[i]) == t;
      assert Text.TrimSpace((values + [tool])[i]) == t;
    }
    assert (values + [tool])[|values|] == tool;
  }

  lemma {:induction false} WithoutToolContains(values: seq<string>, tool: string, t: string)
    ensures ContainsString(WithoutTool(values, tool), t) <==> ContainsString(values, t) && t != tool
  {
    if values != [] {
      WithoutToolContains(values[1..], tool, t);
      ConsContains(values[0], values[1..], t);
      assert [values[0]] + values[1..] == values;
      ConsContains(values[0], WithoutTool(values[1..], tool), t);
      assert [] + WithoutTool(values[1..], tool) == WithoutTool(values[1..], tool);
    }
  }

  lemma ConsContains(head: string, tail: seq<string>, t: string)
    ensures ContainsString([head] + tail, t) <==> Text.TrimSpace(head) == t || ContainsString(tail, t)
  {
    assert ([head] + tail)[0] == head;
    if ContainsString(tail, t) {
      var i :| 0 <= i < |tail| && Text.TrimSpace(tail[i]) == t;
      assert Text.TrimSpace(([head] + tail)[i + 1]) == t;
    }
    if i :| 0 < i < |[head] + tail| && Text.TrimSpace(([head] + tail)[i]) == t {
      assert tail[i - 1] == ([head] + tail)[i];
    }
  }

  /** Adding a tool adds exactly its trimmed entry; a blank tool name adds nothing. */
  lemma AddedHas(a: Allowlist, server: string, project: string, tool: string, p: string, s: string, t: string)
    ensures Has(Added(a, server, project, tool), p, s, t)
       <==> Has(a, p, s, t) || (Names(project, server, tool, p, s, t) && t != "")
  {
    var s0, p0, t0 := Text.TrimSpace(server), Text.TrimSpace(project), Text.TrimSpace(tool);
    Text.TrimSpaceExact(tool);
    AppendContains(Listed(a, p0, s0), t0, t);
  }

  lemma ListedRemoved(a: Allowlist, server: string, project: string, tool: string, p: string, s: string)
    ensures Listed(Removed(a, server, project, tool), p, s) ==
            if Text.TrimSpace(project) == p && Text.TrimSpace(server) == s then
              WithoutTool(Listed(a, p, s), Text.TrimSpace(tool))
            else Listed(a, p, s)
  {
  }

  /** Removing a tool removes exactly its trimmed entry, in that scope only. */
  lemma RemovedHas(a: Allowlist, server: string, project: string, tool: string, p: string, s: string, t: string)
    ensures Has(Removed(a, server, project, tool), p, s, t)
       <==> Has(a, p, s, t) && !Names(project, server, tool, p, s, t)
  {
    ListedRemoved(a, server, project, tool, p, s);
    WithoutToolContains(Listed(a, p, s), Text.TrimSpace(tool), t);
  }

  /** What a merge takes from `src`: keys are trimmed on the way, so a blank project becomes server-wide. */
  ghost predicate Contributes(src: Allowlist, p: string, s: string, t: string) {
    && t != ""
    && (|| (p == "" && FromServers(src.serverTools, s, t))
        || FromProjects(src.projectTools, p, s, t))
  }

  ghost predicate FromProjects(projects: map<string, map<string, seq<string>>>, p: string, s: string, t: string) {
    exists p0 :: p0 in projects && Text.TrimSpace(p0) == p && FromServers(projects[p0], s, t)
  }

  ghost predicate FromServers(servers: map<string, seq<string>>, s: string, t: string) {
    exists s0 :: s0 in servers && Text.TrimSpace(s0) == s && ContainsString(servers[s0], t)
  }
}
