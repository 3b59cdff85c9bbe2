/** What the inventory says after any history, read off the discoveries and the allowlist edits themselves. */
module FirewallHistory {
  import opened Allowlists
  import opened Firewall
  import Routing
  import Text

  // ---- Discoveries ----

  /** `tools[i]` is the last sighting of this trimmed name. */
  predicate LastOfName(tools: seq<Sighting>, name: string, i: nat) {
    && i < |tools| && name != "" && Text.TrimSpace(tools[i].name) == name
    && forall j :: i < j < |tools| ==> Text.TrimSpace(tools[j].name) != name
  }

  /** A discovery has seen a tool exactly if it was reported under that name, and then as it was reported last. */
  lemma {:induction false} SeenIsTheLast(tools: seq<Sighting>, name: string)
    ensures name in Seen(tools) <==> exists i: nat :: LastOfName(tools, name, i)
    ensures forall i: nat :: LastOfName(tools, name, i) ==> name in Seen(tools) && Seen(tools)[name] == tools[i]
  {
    if tools != [] {
      var n := |tools| - 1;
      var before := tools[..n];
      SeenIsTheLast(before, name);
      if Text.TrimSpace(tools[n].name) == name {
        assert name != "" ==> LastOfName(tools, name, n);
      } else {
        forall i: nat ensures LastOfName(tools, name, i) <==> LastOfName(before, name, i) {
          assert i < n ==> before[i] == tools[i];
        }
      }
    }
  }

  /** A saved discovery leaves exactly what it saw, with its time, and leaves the other servers as they were. */
  lemma DiscoveryIsRecorded(file: Inventory, a: Action, server: string, tool: string)
    requires a.Discover? && a.saves
    ensures var records := ToolsOf(Apply(file, a), server);
            if server == a.server then
              && (tool in records <==> tool in Seen(a.tools))
              && (tool in records ==>
                    && records[tool].seenAt == a.at && records[tool].hash == Seen(a.tools)[tool].hash
                    && records[tool].description == Text.TrimSpace(Seen(a.tools)[tool].description)
                    && records[tool].risk == Seen(a.tools)[tool].risk)
            else records == if a.loads then ToolsOf(file, server) else map[]
  {
    RecordedMatchesSeen(ToolsOf(if a.loads then file else EMPTY, server), a.tools, a.at);
  }

  /** The entry tells what the sighting was, a missing risk class as unknown, and its state by the one before. */
  ghost predicate TellsSighting(e: ToolEntry, discoveries: seq<map<string, Sighting>>, tool: string)
    requires discoveries != [] && tool in discoveries[|discoveries| - 1]
  {
    var seen := discoveries[|discoveries| - 1][tool];
    && RecordMatches(Record(e.description, e.hash, e.seenAt, e.state, seen.risk), discoveries, tool)
    && e.risk == if seen.risk == Routing.OtherRisk("") then Routing.RiskUnknown else seen.risk
  }

  /** What is said of a tool that the last discovery has not seen. */
  predicate TellsNothing(e: ToolEntry) {
    && e.hash == "" && e.description == "" && e.state == UnknownState && e.risk == Routing.RiskUnknown
    && !e.decision.allowed
  }

  ghost predicate Tells(e: ToolEntry, discoveries: seq<map<string, Sighting>>, tool: string) {
    if discoveries != [] && tool in discoveries[|discoveries| - 1] then TellsSighting(e, discoveries, tool)
    else TellsNothing(e)
  }

  lemma RecordsTell(tools: map<string, Record>, discoveries: seq<map<string, Sighting>>, server: string, tool: string,
                    allowlisted: bool)
    requires RecordsMatch(tools, discoveries)
    ensures var e := EntryOf(server, tool, if tool in tools then tools[tool] else UNSEEN, allowlisted);
            Tells(e, discoveries, tool)
  {
    if tool in tools {
      assert RecordMatches(tools[tool], discoveries, tool);
    }
  }

  lemma EvaluationTells(inventory: Inventory, discoveries: seq<map<string, Sighting>>, configured: Allowlist,
                        server: string, project: string, tool: string)
    requires RecordsMatch(ToolsOf(inventory, server), discoveries)
    ensures Tells(Evaluate(inventory, configured, server, project, tool), discoveries, tool)
  {
    RecordsTell(ToolsOf(inventory, server), discoveries, server, tool,
                MergedAllows(configured, inventory.allowlist, server, project, tool));
  }

  /** An evaluated tool is unknown until a discovery of its server has seen it, and then as the last one saw it. */
  lemma EntryIsTheLastSighting(actions: seq<Action>, configured: Allowlist, server: string, project: string,
                               tool: string)
    ensures Tells(Evaluate(After(EMPTY, actions), configured, server, project, tool), Discoveries(actions, server),
                  tool)
  {
    InventoryFollowsDiscoveries(actions, server);
    EvaluationTells(After(EMPTY, actions), Discoveries(actions, server), configured, server, project, tool);
  }

  // ---- Allowlist edits ----

  /** An edit of exactly this trimmed entry that is saved. */
  predicate Edits(a: Action, p: string, s: string, t: string) {
    a.SetAllowlist? && a.loads && a.saves && t != "" && Names(a.project, a.server, a.tool, p, s, t)
  }

  /** The k-th action allowed the entry, and no later one edited it or started the inventory over. */
  predicate AllowedAt(actions: seq<Action>, k: nat, p: string, s: string, t: string) {
    && k < |actions| && Edits(actions[k], p, s, t) && actions[k].allowed
    && forall j :: k < j < |actions| ==> !Edits(actions[j], p, s, t) && !StartsOver(actions[j])
  }

  /** The last saved edit of the entry since the inventory last started over allowed it. */
  ghost predicate LastAllowed(actions: seq<Action>, p: string, s: string, t: string) {
    exists k: nat :: AllowedAt(actions, k, p, s, t)
  }

  lemma AllowedAtSnoc(actions: seq<Action>, a: Action, k: nat, p: string, s: string, t: string)
    ensures AllowedAt(actions + [a], k, p, s, t) <==>
              if k == |actions| then Edits(a, p, s, t) && a.allowed
              else AllowedAt(actions, k, p, s, t) && !Edits(a, p, s, t) && !StartsOver(a)
  {
    var more := actions + [a];
    assert more[|actions|] == a;
    assert forall j :: 0 <= j < |actions| ==> more[j] == actions[j];
  }

  lemma LastAllowedSnoc(actions: seq<Action>, a: Action, p: string, s: string, t: string)
    ensures LastAllowed(actions + [a], p, s, t) <==>
              if Edits(a, p, s, t) then a.allowed else LastAllowed(actions, p, s, t) && !StartsOver(a)
  {
    AllowedAtSnoc(actions, a, |actions|, p, s, t);
    if k: nat :| AllowedAt(actions, k, p, s, t) { AllowedAtSnoc(actions, a, k, p, s, t); }
    if k: nat :| AllowedAt(actions + [a], k, p, s, t) { AllowedAtSnoc(actions, a, k, p, s, t); }
  }

  lemma EditHas(file: Inventory, a: Action, p: string, s: string, t: string)
    requires a.SetAllowlist?
    ensures Has(Apply(file, a).allowlist, p, s, t) <==>
              if Edits(a, p, s, t) then a.allowed else Has(file.allowlist, p, s, t)
  {
    var tool := Text.TrimSpace(a.tool);
    Text.TrimSpaceExact(a.tool);
    AddedHas(file.allowlist, a.server, a.project, tool, p, s, t);
    RemovedHas(file.allowlist, a.server, a.project, tool, p, s, t);
  }

  /** The persisted list holds an entry exactly when the last edit of it allowed it. */
  lemma {:induction false} LastEditDecides(actions: seq<Action>, p: string, s: string, t: string)
    ensures Has(After(EMPTY, actions).allowlist, p, s, t) <==> LastAllowed(actions, p, s, t)
  {
    if actions != [] {
      var before, last := actions[..|actions| - 1], actions[|actions| - 1];
      LastEditDecides(before, p, s, t);
      assert actions == before + [last];
      LastAllowedSnoc(before, last, p, s, t);
      if last.SetAllowlist? { EditHas(After(EMPTY, before), last, p, s, t); }
    }
  }

  /** Every key of the list is trimmed, and no project is blank, so that a merge takes each entry as it is. */
  predicate Trimmed(a: Allowlist) {
    && (forall s :: s in a.serverTools ==> Text.TrimSpace(s) == s)
    && forall p :: p in a.projectTools ==>
         p != "" && Text.TrimSpace(p) == p && forall s :: s in a.projectTools[p] ==> Text.TrimSpace(s) == s
  }

  lemma EditsKeepTrimmed(a: Allowlist, server: string, project: string, tool: string)
    requires Trimmed(a)
    ensures Trimmed(Added(a, server, project, tool)) && Trimmed(Removed(a, server, project, tool))
  {
    Text.TrimSpaceExact(server);
    Text.TrimSpaceExact(project);
  }

  lemma {:induction false} KeysStayTrimmed(actions: seq<Action>)
    ensures Trimmed(After(EMPTY, actions).allowlist)
  {
    if actions != [] {
      var before, last := actions[..|actions| - 1], actions[|actions| - 1];
      KeysStayTrimmed(before);
      if last.SetAllowlist? {
        EditsKeepTrimmed(After(EMPTY, before).allowlist, last.server, last.project, Text.TrimSpace(last.tool));
      }
    }
  }

  lemma TrimmedContributes(a: Allowlist, p: string, s: string, t: string)
    requires Trimmed(a)
    ensures Contributes(a, p, s, t) <==> t != "" && Has(a, p, s, t)
  {
    if t != "" && Has(a, p, s, t) {
      if p == "" {
        assert s in a.serverTools;
      } else {
        assert p in a.projectTools && s in a.projectTools[p];
        assert FromServers(a.projectTools[p], s, t);
      }
    }
  }

  /**
   Over every history, a tool counts as allowlisted exactly if it is configured so, or the last saved edit of it, for
   everyone or for this project, allowed it.
   */
  lemma AllowlistedExactlyWhenLastAllowed(actions: seq<Action>, configured: Allowlist, server: string,
                                          project: string, tool: string)
    ensures var s, p, t := Text.TrimSpace(server), Text.TrimSpace(project), Text.TrimSpace(tool);
            Evaluate(After(EMPTY, actions), configured, server, project, tool).decision.allowlisted <==>
              || Has(configured, "", s, t) || LastAllowed(actions, "", s, t)
              || (p != "" && (Has(configured, p, s, t) || LastAllowed(actions, p, s, t)))
  {
    var s, p, t := Text.TrimSpace(server), Text.TrimSpace(project), Text.TrimSpace(tool);
    var persisted := After(EMPTY, actions).allowlist;
    KeysStayTrimmed(actions);
    TrimmedContributes(persisted, "", s, t);
    TrimmedContributes(persisted, p, s, t);
    LastEditDecides(actions, "", s, t);
    LastEditDecides(actions, p, s, t);
  }
}
