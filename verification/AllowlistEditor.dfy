/** The allowlist as the program edits it: maps of lists changed in place, and a merge that walks maps in any order. */
module AllowlistEditor {
  import opened Allowlists
  import Text

  method Contains(values: seq<string>, target: string) returns (found: bool)
    ensures found == ContainsString(values, target)
  {
    for i := 0 to |values|
      invariant forall j :: 0 <= j < i ==> Text.TrimSpace(values[j]) != target
    {
      if Text.TrimSpace(values[i]) == target { return true; }
    }
    return false;
  }

  method RemoveString(values: seq<string>, target: string) returns (out: seq<string>)
    ensures out == WithoutTool(values, target)
  {
    out := [];
    var i := 0;
    while i < |values|
      invariant 0 <= i <= |values|
      invariant out + WithoutTool(values[i..], target) == WithoutTool(values, target)
    {
      WithoutToolFrom(values, i, target);
      if Text.TrimSpace(values[i]) != target {
        out := out + [values[i]];
      }
      i := i + 1;
    }
    assert values[i..] == [];
  }

  class Editor {
    var serverTools: map<string, seq<string>>
    var projectTools: map<string, map<string, seq<string>>>

    function Value(): Allowlist
      reads this
    {
      Allowlist(serverTools, projectTools)
    }

    constructor (a: Allowlist)
      ensures Value() == a
    {
      serverTools, projectTools := a.serverTools, a.projectTools;
    }

    method AddAllowlistTool(serverId: string, project: string, toolName: string)
      modifies this
      ensures Value() == Added(old(Value()), serverId, project, toolName)
    {
      var s, p, t := Text.TrimSpace(serverId), Text.TrimSpace(project), Text.TrimSpace(toolName);
      if t == "" { return; }
      var tools := Listed(Value(), p, s);
      var present := Contains(tools, t);
      if present { return; }
      if p == "" {
        serverTools := serverTools[s := tools + [t]];
      } else {
        var servers := if p in projectTools then projectTools[p] else map[];
        projectTools := projectTools[p := servers[s := tools + [t]]];
      }
    }

    method RemoveAllowlistTool(serverId: string, project: string, toolName: string)
      modifies this
      ensures Value() == Removed(old(Value()), serverId, project, toolName)
    {
      var s, p, t := Text.TrimSpace(serverId), Text.TrimSpace(project), Text.TrimSpace(toolName);
      if p != "" && p !in projectTools { return; }
      var kept := RemoveString(Listed(Value(), p, s), t);
      if p == "" {
        serverTools := serverTools[s := kept];
      } else {
        projectTools := projectTools[p := projectTools[p][s := kept]];
      }
    }

    method IsToolAllowlisted(serverId: string, project: string, toolName: string) returns (r: bool)
      ensures r == Allowlisted(Value(), serverId, project, toolName)
    {
      var s, p, t := Text.TrimSpace(serverId), Text.TrimSpace(project), Text.TrimSpace(toolName);
      r := Contains(Listed(Value(), "", s), t);
      if !r && p != "" {
        r := Contains(Listed(Value(), p, s), t);
      }
    }

    method AddTools(serverId: string, project: string, tools: seq<string>)
      modifies this
      ensures forall p, s, t :: Has(Value(), p, s, t) <==>
                || Has(old(Value()), p, s, t)
                || (Text.TrimSpace(project) == p && Text.TrimSpace(serverId) == s && ContainsString(tools, t)
                    && t != "")
    {
      ghost var before := Value();
      var i := 0;
      while i < |tools|
        invariant 0 <= i <= |tools|
        invariant forall p, s, t :: Has(Value(), p, s, t) <==>
                    || Has(before, p, s, t)
                    || (Text.TrimSpace(project) == p && Text.TrimSpace(serverId) == s
                        && ContainsString(tools[..i], t) && t != "")
      {
        ghost var here := Value();
        AddAllowlistTool(serverId, project, tools[i]);
        assert tools[..i + 1] == tools[..i] + [tools[i]];
        forall p, s, t
          ensures Has(Value(), p, s, t) <==>
                    || Has(before, p, s, t)
                    || (Text.TrimSpace(project) == p && Text.TrimSpace(serverId) == s
                        && ContainsString(tools[..i + 1], t) && t != "")
        {
          AddedHas(here, serverId, project, tools[i], p, s, t);
          AppendContains(tools[..i], tools[i], t);
        }
        i := i + 1;
      }
      assert tools[..i] == tools;
    }

    method AddServers(project: string, servers: map<string, seq<string>>)
      modifies this
      ensures forall p, s, t :: Has(Value(), p, s, t) <==>
                || Has(old(Value()), p, s, t)
                || (Text.TrimSpace(project) == p && FromServers(servers, s, t) && t != "")
    {
      ghost var before := Value();
      var left := servers.Keys;
      ghost var done: map<string, seq<string>> := map[];
      while left != {}
        invariant left <= servers.Keys && done.Keys == servers.Keys - left
        invariant forall k :: k in done ==> done[k] == servers[k]
        invariant forall p, s, t :: Has(Value(), p, s, t) <==>
                    || Has(before, p, s, t)
                    || (Text.TrimSpace(project) == p && FromServers(done, s, t) && t != "")
        decreases |left|
      {
        var server :| server in left;
        ghost var was := done;
        AddTools(server, project, servers[server]);
        left := left - {server};
        done := done[server := servers[server]];
        forall s, t ensures FromServers(done, s, t) <==>
                              || FromServers(was, s, t)
                              || (Text.TrimSpace(server) == s && ContainsString(servers[server], t))
        {
          OneMoreServer(was, server, servers[server], s, t);
        }
      }
      assert done == servers;
    }

    method AddProjects(projects: map<string, map<string, seq<string>>>)
      modifies this
      ensures forall p, s, t :: Has(Value(), p, s, t) <==>
                Has(old(Value()), p, s, t) || (t != "" && FromProjects(projects, p, s, t))
    {
      ghost var before := Value();
      var left := projects.Keys;
      ghost var done: map<string, map<string, seq<string>>> := map[];
      while left != {}
        invariant left <= projects.Keys && done.Keys == projects.Keys - left
        invariant forall k :: k in done ==> done[k] == projects[k]
        invariant forall p, s, t :: Has(Value(), p, s, t) <==>
                    Has(before, p, s, t) || (t != "" && FromProjects(done, p, s, t))
        decreases |left|
      {
        var project :| project in left;
        ghost var was := done;
        AddServers(project, projects[project]);
        left := left - {project};
        done := done[project := projects[project]];
        forall p, s, t ensures FromProjects(done, p, s, t) <==>
                                 FromProjects(was, p, s, t)
                                 || (Text.TrimSpace(project) == p && FromServers(projects[project], s, t))
        {
          OneMoreProject(was, project, projects[project], p, s, t);
        }
      }
      assert done == projects;
    }

    /** Walk both maps of the source, whatever order the iteration takes. */
    method MergeAllowlist(src: Allowlist)
      modifies this
      ensures forall p, s, t :: Has(Value(), p, s, t) <==> Has(old(Value()), p, s, t) || Contributes(src, p, s, t)
    {
      AddServers("", src.serverTools);
      AddProjects(src.projectTools);
    }
  }

  lemma OneMoreServer(done: map<string, seq<string>>, server: string, tools: seq<string>, s: string, t: string)
    requires server !in done
    ensures FromServers(done[server := tools], s, t) <==>
              FromServers(done, s, t) || (Text.TrimSpace(server) == s && ContainsString(tools, t))
  {
    var more := done[server := tools];
    if FromServers(done, s, t) {
      var s0 :| s0 in done && Text.TrimSpace(s0) == s && ContainsString(done[s0], t);
      assert s0 in more && ContainsString(more[s0], t);
    }
    if Text.TrimSpace(server) == s && ContainsString(tools, t) {
      assert server in more && ContainsString(more[server], t);
    }
  }

  lemma OneMoreProject(done: map<string, map<string, seq<string>>>, project: string, servers: map<string, seq<string>>,
                       p: string, s: string, t: string)
    requires project !in done
    ensures FromProjects(done[project := servers], p, s, t) <==>
              FromProjects(done, p, s, t) || (Text.TrimSpace(project) == p && FromServers(servers, s, t))
  {
    var more := done[project := servers];
    if FromProjects(done, p, s, t) {
      var p0 :| p0 in done && Text.TrimSpace(p0) == p && FromServers(done[p0], s, t);
      assert p0 in more && FromServers(more[p0], s, t);
    }
    if Text.TrimSpace(project) == p && FromServers(servers, s, t) {
      assert project in more && FromServers(more[project], s, t);
    }
  }
}
