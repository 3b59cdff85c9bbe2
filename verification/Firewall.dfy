/**
 The tool firewall: discoveries and allowlist edits update one persisted inventory, and a tool is trusted only when
 two consecutive discoveries of its server saw the same schema.
 */
module Firewall {
  import opened Allowlists
  import Routing
  import Text

  type Risk = Routing.Risk

  datatype SchemaState = Known | New | Changed | UnknownState

  /** One tool as a probe reports it, with its schema hash and risk class. */
  datatype Sighting = Sighting(name: string, description: string, hash: string, risk: Risk)

  datatype Record = Record(description: string, hash: string, seenAt: string, state: SchemaState, risk: Risk)

  datatype Inventory = Inventory(servers: map<string, map<string, Record>>, allowlist: Allowlist)

  const EMPTY := Inventory(map[], NO_ENTRIES)

  // ---- The decision ----

  /** A row of the inventory with the decision that holds for it. */
  datatype ToolEntry = ToolEntry(
    serverId: string, name: string, description: string, hash: string, seenAt: string, state: SchemaState,
    risk: Risk, decision: Routing.ToolDecision)

  datatype Stance = Permits | AsksApproval | Blocks

  predicate ReviewRequired(state: SchemaState) { state != Known }

  /** A tool without a risk class counts as unknown. */
  function Classified(risk: Risk): Risk {
    if risk == Routing.OtherRisk("") then Routing.RiskUnknown else risk
  }

  function StanceOn(risk: Risk, state: SchemaState, allowlisted: bool): Stance {
    var guarded := if allowlisted then AsksApproval else Blocks;
    if ReviewRequired(state) then guarded
    else
      match risk
      case RiskReadOnly => Permits
      case _ => guarded
  }

  function StatusText(stance: Stance): string {
    match stance
    case Permits => "allowed"
    case AsksApproval => "approval_required"
    case Blocks => "blocked"
  }

  function Decide(risk: Risk, state: SchemaState, allowlisted: bool): Routing.ToolDecision {
    var stance := StanceOn(Classified(risk), state, allowlisted);
    Routing.ToolDecision(StatusText(stance), stance.Permits?, stance.AsksApproval?, Classified(risk), allowlisted, true)
  }

  function ToolsOf(inventory: Inventory, server: string): map<string, Record> {
    if server in inventory.servers then inventory.servers[server] else map[]
  }

  /** The configured allowlist merged with the persisted one. */
  ghost predicate MergedHas(configured: Allowlist, persisted: Allowlist, p: string, s: string, t: string) {
    Has(configured, p, s, t) || Contributes(persisted, p, s, t)
  }

  ghost predicate MergedAllows(configured: Allowlist, persisted: Allowlist, server: string, project: string,
                               tool: string) {
    var s, p, t := Text.TrimSpace(server), Text.TrimSpace(project), Text.TrimSpace(tool);
    MergedHas(configured, persisted, "", s, t) || (p != "" && MergedHas(configured, persisted, p, s, t))
  }

  function EntryOf(server: string, tool: string, record: Record, allowlisted: bool): ToolEntry {
    ToolEntry(server, tool, record.description, record.hash, record.seenAt, record.state,
              Classified(record.risk), Decide(record.risk, record.state, allowlisted))
  }

  /** The entry of a tool that no discovery has seen. */
  const UNSEEN := Record("", "", "", UnknownState, Routing.RiskUnknown)

  ghost function Evaluate(inventory: Inventory, configured: Allowlist, server: string, project: string,
                          tool: string): ToolEntry {
    var tools := ToolsOf(inventory, server);
    EntryOf(server, tool, if tool in tools then tools[tool] else UNSEEN,
            MergedAllows(configured, inventory.allowlist, server, project, tool))
  }

  // ---- The updates ----

  function StateAgainst(prior: map<string, Record>, name: string, hash: string): SchemaState {
    if name !in prior then New else if prior[name].hash != hash then Changed else Known
  }

  function RecordFor(prior: map<string, Record>, tool: Sighting, at: string): Record {
    var name := Text.TrimSpace(tool.name);
    Record(Text.TrimSpace(tool.description), tool.hash, at, StateAgainst(prior, name, tool.hash), tool.risk)
  }

  /** What a discovery records; of two tools with one name the later counts, and a blank name is skipped. */
  function Recorded(prior: map<string, Record>, tools: seq<Sighting>, at: string): map<string, Record> {
    if tools == [] then map[]
    else
      var before := Recorded(prior, tools[..|tools| - 1], at);
      var last := tools[|tools| - 1];
      if Text.TrimSpace(last.name) == "" then before
      else before[Text.TrimSpace(last.name) := RecordFor(prior, last, at)]
  }

  lemma RecordedStep(prior: map<string, Record>, tools: seq<Sighting>, i: nat, at: string)
    requires i < |tools|
    ensures Recorded(prior, tools[..i + 1], at) ==
            if Text.TrimSpace(tools[i].name) == "" then Recorded(prior, tools[..i], at)
            else Recorded(prior, tools[..i], at)[Text.TrimSpace(tools[i].name) := RecordFor(prior, tools[i], at)]
  {
    assert tools[..i + 1][..i] == tools[..i];
  }

  /** The rows a discovery reports, in the order of the probe, each with the decision under the merged allowlist. */
  ghost function Reported(inventory: Inventory, configured: Allowlist, server: string, tools: seq<Sighting>,
                          at: string): seq<ToolEntry> {
    if tools == [] then []
    else
      var before := Reported(inventory, configured, server, tools[..|tools| - 1], at);
      var last := tools[|tools| - 1];
      var name := Text.TrimSpace(last.name);
      if name == "" then before
      else
        before + [EntryOf(server, name, RecordFor(ToolsOf(inventory, server), last, at),
                          MergedAllows(configured, inventory.allowlist, server, "", name))]
  }

  lemma ReportedStep(inventory: Inventory, configured: Allowlist, server: string, tools: seq<Sighting>, i: nat,
                     at: string)
    requires i < |tools|
    ensures var before := Reported(inventory, configured, server, tools[..i], at);
            var name := Text.TrimSpace(tools[i].name);
            Reported(inventory, configured, server, tools[..i + 1], at) ==
            if name == "" then before
            else before + [EntryOf(server, name, RecordFor(ToolsOf(inventory, server), tools[i], at),
                                   MergedAllows(configured, inventory.allowlist, server, "", name))]
  {
    assert tools[..i + 1][..i] == tools[..i];
  }

  function Discovered(inventory: Inventory, server: string, tools: seq<Sighting>, at: string): Inventory {
    inventory.(servers := inventory.servers[server := Recorded(ToolsOf(inventory, server), tools, at)])
  }

  ghost function Edited(a: Allowlist, server: string, project: string, tool: string, allowed: bool): Allowlist {
    if allowed then Added(a, server, project, tool) else Removed(a, server, project, tool)
  }

  /** Loading or saving may fail; the load, the change and the save happen under one lock. */
  datatype Action =
    | Discover(server: string, tools: seq<Sighting>, at: string, loads: bool, saves: bool)
    | SetAllowlist(server: string, project: string, tool: string, allowed: bool, loads: bool, saves: bool)

  /** A discovery starts over when the file cannot be read; an allowlist edit gives up. */
  ghost function Apply(file: Inventory, a: Action): Inventory {
    match a
    case Discover(server, tools, at, loads, saves) =>
      if !saves then file else Discovered(if loads then file else EMPTY, server, tools, at)
    case SetAllowlist(server, project, tool, allowed, loads, saves) =>
      if !saves || !loads || Text.TrimSpace(tool) == "" then file
      else file.(allowlist := Edited(file.allowlist, server, project, Text.TrimSpace(tool), allowed))
  }

  ghost function After(file: Inventory, actions: seq<Action>): Inventory {
    if actions == [] then file else Apply(After(file, actions[..|actions| - 1]), actions[|actions| - 1])
  }

  // ---- Reading the same history without the inventory ----

  /** What one discovery saw: by trimmed name, the last tool of that name. */
  function Seen(tools: seq<Sighting>): map<string, Sighting> {
    if tools == [] then map[]
    else
      var last := tools[|tools| - 1];
      var before := Seen(tools[..|tools| - 1]);
      if Text.TrimSpace(last.name) == "" then before else before[Text.TrimSpace(last.name) := last]
  }

  /** The persisted discoveries of one server, oldest first, since the inventory last started over. */
  function Discoveries(actions: seq<Action>, server: string): seq<map<string, Sighting>> {
    if actions == [] then []
    else
      var before := Discoveries(actions[..|actions| - 1], server);
      match actions[|actions| - 1]
      case Discover(id, tools, _, loads, true) =>
        (if loads then before else []) + (if id == server then [Seen(tools)] else [])
      case _ => before
  }

  /** The tool was in the last two discoveries of its server, with one schema hash, and is read-only by the later. */
  predicate SeenTwiceReadOnly(discoveries: seq<map<string, Sighting>>, tool: string) {
    var n := |discoveries|;
    && n >= 2
    && tool in discoveries[n - 1] && tool in discoveries[n - 2]
    && discoveries[n - 1][tool].hash == discoveries[n - 2][tool].hash
    && discoveries[n - 1][tool].risk == Routing.RiskReadOnly
  }

  /** One record of the last discovery: what was seen, and how its hash compares with the discovery before. */
  ghost predicate RecordMatches(record: Record, discoveries: seq<map<string, Sighting>>, tool: string)
    requires discoveries != [] && tool in discoveries[|discoveries| - 1]
  {
    var n := |discoveries|;
    var seen := discoveries[n - 1][tool];
    && record.description == Text.TrimSpace(seen.description) && record.hash == seen.hash && record.risk == seen.risk
    && (record.state == New <==> n < 2 || tool !in discoveries[n - 2])
    && (record.state == Known <==> n >= 2 && tool in discoveries[n - 2] && discoveries[n - 2][tool].hash == seen.hash)
    && (record.state == Changed <==> n >= 2 && tool in discoveries[n - 2] && discoveries[n - 2][tool].hash != seen.hash)
  }

  /** The records of a server are those of its last discovery. */
  ghost predicate RecordsMatch(records: map<string, Record>, discoveries: seq<map<string, Sighting>>) {
    if discoveries == [] then records == map[]
    else
      && records.Keys == discoveries[|discoveries| - 1].Keys
      && forall t :: t in records ==> RecordMatches(records[t], discoveries, t)
  }

  /** The record of one sighting after these records. */
  predicate RecordIs(record: Record, prior: map<string, Record>, tool: string, seen: Sighting, at: string) {
    && record.description == Text.TrimSpace(seen.description) && record.hash == seen.hash && record.risk == seen.risk
    && record.seenAt == at && record.state == StateAgainst(prior, tool, seen.hash)
  }

  lemma {:induction false} RecordedMatchesSeen(prior: map<string, Record>, tools: seq<Sighting>, at: string)
    ensures Recorded(prior, tools, at).Keys == Seen(tools).Keys
    ensures forall t :: t in Seen(tools) ==> RecordIs(Recorded(prior, tools, at)[t], prior, t, Seen(tools)[t], at)
  {
    if tools != [] {
      RecordedMatchesSeen(prior, tools[..|tools| - 1], at);
    }
  }

  lemma {:induction false} InventoryFollowsDiscoveries(actions: seq<Action>, server: string)
    ensures RecordsMatch(ToolsOf(After(EMPTY, actions), server), Discoveries(actions, server))
  {
    if actions != [] {
      var before, last := actions[..|actions| - 1], actions[|actions| - 1];
      InventoryFollowsDiscoveries(before, server);
      if last.Discover? && last.saves {
        DiscoveryKeepsMatch(if last.loads then After(EMPTY, before) else EMPTY,
                            if last.loads then Discoveries(before, server) else [],
                            last.server, last.tools, last.at, server);
      }
    }
  }

  /** One more discovery, of this server or of another. */
  lemma DiscoveryKeepsMatch(inventory: Inventory, discoveries: seq<map<string, Sighting>>, id: string,
                            tools: seq<Sighting>, at: string, server: string)
    requires RecordsMatch(ToolsOf(inventory, server), discoveries)
    ensures RecordsMatch(ToolsOf(Discovered(inventory, id, tools, at), server),
                         discoveries + if id == server then [Seen(tools)] else [])
  {
    if id == server {
      RecordedMatchesSeen(ToolsOf(inventory, server), tools, at);
      SeenIsRecorded(ToolsOf(inventory, server), discoveries, Recorded(ToolsOf(inventory, server), tools, at),
                     Seen(tools), at);
    }
  }

  lemma SeenIsRecorded(prior: map<string, Record>, discoveries: seq<map<string, Sighting>>,
                       records: map<string, Record>, seen: map<string, Sighting>, at: string)
    requires RecordsMatch(prior, discoveries) && records.Keys == seen.Keys
    requires forall t :: t in seen ==> RecordIs(records[t], prior, t, seen[t], at)
    ensures RecordsMatch(records, discoveries + [seen])
  {
    forall t | t in records ensures RecordMatches(records[t], discoveries + [seen], t) {
      assert RecordIs(records[t], prior, t, seen[t], at);
      assert t in prior ==> RecordMatches(prior[t], discoveries, t);
    }
  }

  /** The four fields of a decision always tell the same story, and the entry repeats its risk. */
  lemma DecisionsAreConsistent(inventory: Inventory, configured: Allowlist, server: string, project: string,
                               tool: string)
    ensures var e := Evaluate(inventory, configured, server, project, tool);
            && e.serverId == server && e.name == tool && e.risk == e.decision.risk && e.decision.untrustedOutput
            && (e.decision.status == "allowed" <==> e.decision.allowed)
            && (e.decision.status == "approval_required" <==> e.decision.approvalRequired)
            && (e.decision.status == "blocked" <==> !e.decision.allowed && !e.decision.approvalRequired)
            && !(e.decision.allowed && e.decision.approvalRequired)
  {
    var e := Evaluate(inventory, configured, server, project, tool);
    StatusTextsDiffer();
  }

  lemma StatusTextsDiffer()
    ensures "allowed" != "approval_required" && "allowed" != "blocked" && "approval_required" != "blocked"
  {
    assert "allowed"[0] != "blocked"[0] && "approval_required"[0] != "blocked"[0];
    assert "allowed"[1] != "approval_required"[1];
  }

  lemma AllowedIsKnownReadOnly(inventory: Inventory, configured: Allowlist, server: string, project: string,
                               tool: string)
    ensures Evaluate(inventory, configured, server, project, tool).decision.allowed
       <==> tool in ToolsOf(inventory, server) && ToolsOf(inventory, server)[tool].state == Known
            && ToolsOf(inventory, server)[tool].risk == Routing.RiskReadOnly
  {
  }

  lemma MatchedIsSeenTwice(records: map<string, Record>, discoveries: seq<map<string, Sighting>>, tool: string)
    requires RecordsMatch(records, discoveries)
    ensures SeenTwiceReadOnly(discoveries, tool)
       <==> tool in records && records[tool].state == Known && records[tool].risk == Routing.RiskReadOnly
  {
  }

  /**
   The two-sighting rule, over all histories: the firewall says allowed exactly for a read-only tool that the last
   two consecutive persisted discoveries of its server saw with one schema hash, whatever the allowlists say.
   */
  lemma AllowedExactlyWhenSeenTwice(actions: seq<Action>, configured: Allowlist, server: string, project: string,
                                    tool: string)
    ensures Evaluate(After(EMPTY, actions), configured, server, project, tool).decision.allowed
       <==> SeenTwiceReadOnly(Discoveries(actions, server), tool)
  {
    var inventory := After(EMPTY, actions);
    InventoryFollowsDiscoveries(actions, server);
    MatchedIsSeenTwice(ToolsOf(inventory, server), Discoveries(actions, server), tool);
    AllowedIsKnownReadOnly(inventory, configured, server, project, tool);
  }

  /** An allowlist decides between blocked and approval, and nothing else. */
  lemma AllowlistingOnlyUnblocks(inventory: Inventory, persisted: Allowlist, configured: Allowlist,
                                 server: string, project: string, tool: string)
    ensures var d := Evaluate(inventory, configured, server, project, tool).decision;
            var e := Evaluate(inventory.(allowlist := persisted), configured, server, project, tool).decision;
            && d.allowed == e.allowed && d.risk == e.risk
            && (!d.allowed ==>
                  && d.approvalRequired == MergedAllows(configured, inventory.allowlist, server, project, tool)
                  && e.approvalRequired == MergedAllows(configured, persisted, server, project, tool))
  {
    assert ToolsOf(inventory.(allowlist := persisted), server) == ToolsOf(inventory, server);
  }

  /** A discovery reports, for every tool it saw, exactly what an evaluation outside any project says afterwards. */
  lemma ReportedIsEvaluated(inventory: Inventory, configured: Allowlist, server: string, tools: seq<Sighting>,
                            at: string, name: string)
    requires name in Seen(tools)
    ensures Evaluate(Discovered(inventory, server, tools, at), configured, server, "", name)
            in Reported(inventory, configured, server, tools, at)
  {
    RecordedMatchesSeen(ToolsOf(inventory, server), tools, at);
    ReportedHasRecord(inventory, configured, server, tools, at, name);
  }

  lemma {:induction false} ReportedHasRecord(
      inventory: Inventory, configured: Allowlist, server: string, tools: seq<Sighting>, at: string, name: string)
    requires name in Recorded(ToolsOf(inventory, server), tools, at)
    ensures EntryOf(server, name, Recorded(ToolsOf(inventory, server), tools, at)[name],
                    MergedAllows(configured, inventory.allowlist, server, "", name))
            in Reported(inventory, configured, server, tools, at)
  {
    var reported := Reported(inventory, configured, server, tools, at);
    var last := Text.TrimSpace(tools[|tools| - 1].name);
    if last != name || last == "" {
      ReportedHasRecord(inventory, configured, server, tools[..|tools| - 1], at, name);
    } else {
      assert reported[|reported| - 1].name == name;
    }
  }

  // ---- Nobody's change is lost ----

  predicate StartsOver(a: Action) { a.Discover? && !a.loads && a.saves }

  function Only(actions: seq<Action>, discoveries: bool): seq<Action> {
    if actions == [] then []
    else
      var before := Only(actions[..|actions| - 1], discoveries);
      if actions[|actions| - 1].Discover? == discoveries then before + [actions[|actions| - 1]] else before
  }

  lemma AfterSnoc(file: Inventory, actions: seq<Action>, a: Action)
    ensures After(file, actions + [a]) == Apply(After(file, actions), a)
  {
    assert (actions + [a])[..|actions + [a]| - 1] == actions;
  }

  /**
   Discoveries and allowlist edits, interleaved in any way, end in the inventory of the discoveries alone with the
   allowlist of the edits alone, as long as no discovery had to start over.
   */
  lemma {:induction false} InterleavingLosesNothing(file: Inventory, actions: seq<Action>)
    requires forall i :: 0 <= i < |actions| ==> !StartsOver(actions[i])
    ensures After(file, actions) ==
            Inventory(After(file, Only(actions, true)).servers, After(file, Only(actions, false)).allowlist)
  {
    if actions != [] {
      var before, last := actions[..|actions| - 1], actions[|actions| - 1];
      assert forall i :: 0 <= i < |before| ==> before[i] == actions[i];
      InterleavingLosesNothing(file, before);
      assert !StartsOver(last);
      AfterSnoc(file, Only(before, true), last);
      AfterSnoc(file, Only(before, false), last);
    }
  }

  /** A discovery that could not read the file and is saved forgets every other server and the whole allowlist. */
  lemma StartingOverForgets(file: Inventory, a: Action, server: string)
    requires StartsOver(a)
    ensures Apply(file, a).allowlist == NO_ENTRIES
    ensures server != a.server ==> ToolsOf(Apply(file, a), server) == map[]
    ensures forall t :: t in ToolsOf(Apply(file, a), a.server) ==> ToolsOf(Apply(file, a), a.server)[t].state == New
  {
    RecordedMatchesSeen(map[], a.tools, a.at);
  }
}
