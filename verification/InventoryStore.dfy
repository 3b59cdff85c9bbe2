/** The persisted tool inventory as the program updates it: load, change and save under one lock. */
module InventoryStore {
  import opened Wrappers
  import opened Allowlists
  import opened AllowlistEditor
  import opened Firewall
  import Text

  class Store {
    /** What the inventory file holds. */
    var file: Inventory
    const configured: Allowlist

    constructor (configured: Allowlist)
      ensures file == EMPTY && this.configured == configured
    {
      this.configured, file := configured, EMPTY;
    }

    method PersistDiscoveredTools(server: string, tools: seq<Sighting>, at: string, loads: bool, saves: bool)
      returns (entries: seq<ToolEntry>)
      modifies this
      ensures file == Apply(old(file), Discover(server, tools, at, loads, saves))
      ensures entries == Reported(if loads then old(file) else EMPTY, configured, server, tools, at)
    {
      var previous := if loads then file else EMPTY;
      var prior := ToolsOf(previous, server);
      var seen: map<string, Record> := map[];
      var merged := new Editor(configured);
      merged.MergeAllowlist(previous.allowlist);
      entries := [];
      for i := 0 to |tools|
        invariant file == old(file) && seen == Recorded(prior, tools[..i], at)
        invariant forall p, s, t :: Has(merged.Value(), p, s, t) <==> MergedHas(configured, previous.allowlist, p, s, t)
        invariant entries == Reported(previous, configured, server, tools[..i], at)
      {
        RecordedStep(prior, tools, i, at);
        ReportedStep(previous, configured, server, tools, i, at);
        var name := Text.TrimSpace(tools[i].name);
        if name != "" {
          var state := New;
          if name in prior {
            state := Known;
            if prior[name].hash != tools[i].hash { state := Changed; }
          }
          var record := Record(Text.TrimSpace(tools[i].description), tools[i].hash, at, state, tools[i].risk);
          var listed := merged.IsToolAllowlisted(server, "", name);
          entries := entries + [EntryOf(server, name, record, listed)];
          seen := seen[name := record];
        }
      }
      assert tools[..|tools|] == tools;
      if saves {
        file := previous.(servers := previous.servers[server := seen]);
      }
    }

    method SetToolAllowlist(server: string, project: string, toolName: string, allowed: bool, loads: bool, saves: bool)
      returns (r: Option<ToolEntry>)
      modifies this
      ensures file == Apply(old(file), SetAllowlist(server, project, toolName, allowed, loads, saves))
      ensures r.Some? <==> Text.TrimSpace(toolName) != "" && loads && saves
      ensures r.Some? ==> r.value == Evaluate(file, configured, server, project, Text.TrimSpace(toolName))
    {
      var tool := Text.TrimSpace(toolName);
      if tool == "" || !loads { return None; }
      var editor := new Editor(file.allowlist);
      if allowed {
        editor.AddAllowlistTool(server, project, tool);
      } else {
        editor.RemoveAllowlistTool(server, project, tool);
      }
      if !saves { return None; }
      file := file.(allowlist := editor.Value());
      var e := EvaluateFromSnapshot(server, project, tool);
      return Some(e);
    }

    method EvaluateTool(server: string, project: string, toolName: string, loads: bool) returns (r: Option<ToolEntry>)
      ensures r.Some? <==> Text.TrimSpace(toolName) != "" && loads
      ensures r.Some? ==> r.value == Evaluate(file, configured, server, project, Text.TrimSpace(toolName))
    {
      var tool := Text.TrimSpace(toolName);
      if tool == "" || !loads { return None; }
      var e := EvaluateFromSnapshot(server, project, tool);
      return Some(e);
    }

    method EvaluateFromSnapshot(server: string, project: string, tool: string) returns (e: ToolEntry)
      ensures e == Evaluate(file, configured, server, project, tool)
    {
      var merged := new Editor(configured);
      merged.MergeAllowlist(file.allowlist);
      var listed := merged.IsToolAllowlisted(server, project, tool);
      var tools := ToolsOf(file, server);
      if tool in tools {
        return EntryOf(server, tool, tools[tool], listed);
      }
      return EntryOf(server, tool, UNSEEN, listed);
    }
  }
}
