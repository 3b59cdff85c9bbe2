/**
 The plan gate: a mutating command runs only against the latest recorded plan of its directory. Requests check, run
 and record in separate steps, and files may change between any two of them.
 */
module PlanGate {
  import opened Wrappers
  import opened Traces
  import Text

  /** Nanoseconds. */
  type Time = int

  const TTL := 3600 * 1000 * 1000 * 1000

  datatype PlanReference = PlanReference(hash: string, tool: string, env: string, connectionId: string,
                                         planCommand: string)

  datatype PlanRecord = PlanRecord(reference: PlanReference, createdAt: Time)

  datatype Rejection = PlanRequired | PlanMismatch | HashRequired | HashMismatch

  /** What a client asks for. */
  datatype Command = Command(path: string, tool: string, env: string, connectionId: string, command: string,
                             hash: string)

  predicate ProducesPlan(command: string) { command == "plan" || command == "preview" || command == "check" }

  predicate Mutates(command: string) {
    command == "apply" || command == "playbook" || command == "up" || command == "destroy" || command == "refresh"
  }

  predicate AllowsMutation(tool: string, planCommand: string, command: string) {
    if tool == "ansible" then planCommand == "check" && (command == "apply" || command == "playbook")
    else if tool == "pulumi" then
      (planCommand == "plan" || planCommand == "preview")
      && (command == "apply" || command == "up" || command == "destroy" || command == "refresh")
    else if tool == "terraform" || tool == "opentofu" then
      planCommand == "plan" && (command == "apply" || command == "destroy")
    else ProducesPlan(planCommand)
  }

  type Plans = map<string, PlanRecord>

  function Validate(plans: Plans, c: Command, now: Time): Result<PlanReference, Rejection> {
    if c.path !in plans || now - plans[c.path].createdAt >= TTL then Err(PlanRequired)
    else
      var ref := plans[c.path].reference;
      if ref.tool != c.tool || ref.env != c.env || ref.connectionId != c.connectionId
         || !AllowsMutation(c.tool, ref.planCommand, c.command) then Err(PlanMismatch)
      else if Text.TrimSpace(c.hash) == "" then Err(HashRequired)
      else if Text.TrimSpace(c.hash) != ref.hash then Err(HashMismatch)
      else Ok(ref)
  }

  function Consume(plans: Plans, c: Command, now: Time): (Plans, Result<PlanReference, Rejection>) {
    var r := Validate(plans, c, now);
    (if r.Ok? then plans - {c.path} else plans, r)
  }

  // ---- The requests ----

  datatype Progress =
    | Requested
    | Cleared               // passed the check, or needs none
    | Started               // a new plan has dropped the old one
    | Admitted              // has consumed its plan, or needs none
    | Executing
    | Finished

  datatype Run = Run(command: Command, progress: Progress)

  datatype Event =
    | Recorded(path: string, record: PlanRecord)
    | Invalidated(path: string)
    | Consumed(thread: nat, command: Command, at: Time)
    | Ran(thread: nat, command: Command)

  /** `gated` is the server setting that mutations require approval. */
  datatype State = State(gated: bool, plans: Plans, runs: map<nat, Run>, trace: seq<Event>)

  datatype Action =
    | Request(thread: nat, command: Command)
    | Check(thread: nat, at: Time, proceeds: bool)     // approval, risk and policy answers
    | Start(thread: nat)
    | Admit(thread: nat, at: Time)
    | Execute(thread: nat)
    | Finish(thread: nat, succeeds: bool, hash: string, at: Time)
    | ChangeFile(path: string)

  predicate RequiresApproval(s: State, c: Command) { s.gated && Mutates(c.command) }

  function Move(s: State, t: nat, p: Progress): State
    requires t in s.runs
  {
    s.(runs := s.runs[t := s.runs[t].(progress := p)])
  }

  function Dropped(s: State, path: string): State {
    s.(plans := s.plans - {path}, trace := s.trace + [Invalidated(path)])
  }

  function StartStep(s: State, t: nat): State
    requires t in s.runs
  {
    var c := s.runs[t].command;
    Move(if ProducesPlan(c.command) then Dropped(s, c.path) else s, t, Started)
  }

  function AdmitStep(s: State, t: nat, now: Time): State
    requires t in s.runs
  {
    var c := s.runs[t].command;
    if !RequiresApproval(s, c) then Move(s, t, Admitted)
    else
      var (plans, r) := Consume(s.plans, c, now);
      if r.Ok? then Move(s.(plans := plans, trace := s.trace + [Consumed(t, c, now)]), t, Admitted)
      else Move(s, t, Finished)
  }

  function FinishStep(s: State, t: nat, succeeds: bool, hash: string, now: Time): State
    requires t in s.runs
  {
    var c := s.runs[t].command;
    var done := Move(s, t, Finished);
    if succeeds && ProducesPlan(c.command) then
      var record := PlanRecord(PlanReference(hash, c.tool, c.env, c.connectionId, c.command), now);
      done.(plans := s.plans[c.path := record], trace := s.trace + [Recorded(c.path, record)])
    else done
  }

  function Apply(s: State, a: Action): State {
    match a
    case Request(t, c) => if t in s.runs then s else s.(runs := s.runs[t := Run(c, Requested)])
    case Check(t, now, proceeds) =>
      if t in s.runs && s.runs[t].progress == Requested then
        Move(s, t, if !RequiresApproval(s, s.runs[t].command) then Cleared
                   else if Validate(s.plans, s.runs[t].command, now).Err? || !proceeds then Finished
                   else Cleared)
      else s
    case Start(t) => if t in s.runs && s.runs[t].progress == Cleared then StartStep(s, t) else s
    case Admit(t, now) => if t in s.runs && s.runs[t].progress == Started then AdmitStep(s, t, now) else s
    case Execute(t) =>
      if t in s.runs && s.runs[t].progress == Admitted then
        Move(s, t, Executing).(trace := s.trace + [Ran(t, s.runs[t].command)])
      else s
    case Finish(t, succeeds, hash, now) =>
      if t in s.runs && s.runs[t].progress == Executing then FinishStep(s, t, succeeds, hash, now) else s
    case ChangeFile(path) => Dropped(s, path)
  }

  function After(s: State, actions: seq<Action>): State {
    if actions == [] then s else Apply(After(s, actions[..|actions| - 1]), actions[|actions| - 1])
  }

  function Initial(gated: bool): State { State(gated, map[], map[], []) }

  // ---- The gate read off the trace ----

  /** The event ends whatever plan the path had: it is recorded anew, invalidated or consumed. */
  predicate Touches(e: Event, path: string) {
    match e
    case Recorded(p, _) => p == path
    case Invalidated(p) => p == path
    case Consumed(_, c, _) => c.path == path
    case Ran(_, _) => false
  }

  /** The plan a path has: the record of the last event that touched it, if that was a recording. */
  function PlanOf(trace: seq<Event>, path: string): Option<PlanRecord> {
    if trace == [] then None
    else
      var last := trace[|trace| - 1];
      if !Touches(last, path) then PlanOf(trace[..|trace| - 1], path)
      else if last.Recorded? then Some(last.record) else None
  }

  /** Recorded at i, and untouched ever since. */
  ghost predicate Standing(trace: seq<Event>, i: int, path: string, record: PlanRecord) {
    && 0 <= i < |trace| && trace[i] == Recorded(path, record)
    && forall m :: i < m < |trace| ==> !Touches(trace[m], path)
  }

  const PLANNING: set<string> := {"plan", "preview", "check"}

  const MUTATIONS: set<string> := {"apply", "playbook", "up", "destroy", "refresh"}

  const KNOWN_TOOLS: set<string> := {"ansible", "pulumi", "terraform", "opentofu"}

  /** Which plan is good for which command, tool by tool; a tool that is not known goes by the plan command alone. */
  predicate PlanServes(tool: string, planCommand: string, command: string) {
    && (tool == "ansible" ==> planCommand == "check" && command in {"apply", "playbook"})
    && (tool == "pulumi" ==> planCommand in {"plan", "preview"} && command in {"apply", "up", "destroy", "refresh"})
    && (tool in {"terraform", "opentofu"} ==> planCommand == "plan" && command in {"apply", "destroy"})
    && (tool !in KNOWN_TOOLS ==> planCommand in PLANNING)
  }

  /** What a command must agree on with the plan of its directory, apart from the hash. */
  predicate Agrees(record: PlanRecord, c: Command) {
    && record.reference == PlanReference(record.reference.hash, c.tool, c.env, c.connectionId,
                                         record.reference.planCommand)
    && PlanServes(c.tool, record.reference.planCommand, c.command)
  }

  /** Everything a consuming command must agree on with the plan it consumes. */
  predicate Fits(record: PlanRecord, c: Command, now: Time) {
    && now - record.createdAt < TTL && Agrees(record, c)
    && record.reference.hash == Text.TrimSpace(c.hash) != ""
  }

  lemma {:induction false} PlanOfIsStanding(trace: seq<Event>, path: string, record: PlanRecord)
    ensures PlanOf(trace, path) == Some(record) <==> exists i :: Standing(trace, i, path, record)
  {
    if trace != [] {
      var before, last := trace[..|trace| - 1], trace[|trace| - 1];
      assert trace == before + [last];
      PlanOfIsStanding(before, path, record);
      if !Touches(last, path) {
        if i :| Standing(before, i, path, record) { assert Standing(trace, i, path, record); }
        if i :| Standing(trace, i, path, record) { assert Standing(before, i, path, record); }
      } else if last == Recorded(path, record) {
        assert Standing(trace, |trace| - 1, path, record);
      } else {
        assert Touches(trace[|trace| - 1], path);
      }
    }
  }

  ghost predicate PlansOk(plans: Plans, trace: seq<Event>) {
    forall p :: PlanOf(trace, p) == if p in plans then Some(plans[p]) else None
  }

  /** A consumption took a plan that stood and fitted. */
  ghost predicate EventOk(before: seq<Event>, e: Event) {
    e.Consumed? ==> exists i, record :: Standing(before, i, e.command.path, record) && Fits(record, e.command, e.at)
  }

  ghost predicate TraceOk(trace: seq<Event>) {
    Lawful(EventOk, trace)
  }

  predicate ConsumedBy(e: Event, t: nat, c: Command) { e.Consumed? && e.thread == t && e.command == c }

  /** How far a run is, read off the trace: at most one consumption and one execution, in this order. */
  ghost predicate RunOk(gated: bool, trace: seq<Event>, t: nat, r: Run) {
    && (r.progress == Requested || r.progress == Cleared || r.progress == Started ==>
          forall i :: 0 <= i < |trace| ==> !(trace[i].Consumed? && trace[i].thread == t))
    && (r.progress == Requested || r.progress == Cleared || r.progress == Started || r.progress == Admitted ==>
          forall i :: 0 <= i < |trace| ==> !(trace[i].Ran? && trace[i].thread == t))
    && (r.progress == Admitted && gated && Mutates(r.command.command) ==>
          exists i :: 0 <= i < |trace| && ConsumedBy(trace[i], t, r.command))
  }

  predicate OfNoRun(e: Event, runs: map<nat, Run>) {
    (e.Consumed? || e.Ran?) && e.thread !in runs
  }

  ghost predicate RunsOk(gated: bool, trace: seq<Event>, runs: map<nat, Run>) {
    && (forall t :: t in runs ==> RunOk(gated, trace, t, runs[t]))
    && (forall i :: 0 <= i < |trace| ==> !OfNoRun(trace[i], runs))
  }

  /** No run consumes twice or executes twice, and a gated mutation executes only after it consumed. */
  ghost predicate OrderOk(gated: bool, trace: seq<Event>) {
    && (forall i, j :: 0 <= i < j < |trace| && trace[i].Consumed? && trace[j].Consumed? ==>
          trace[i].thread != trace[j].thread)
    && (forall i, j :: 0 <= i < j < |trace| && trace[i].Ran? && trace[j].Ran? ==> trace[i].thread != trace[j].thread)
    && (forall j :: 0 <= j < |trace| && trace[j].Ran? && gated && Mutates(trace[j].command.command) ==>
          exists i :: 0 <= i < j && ConsumedBy(trace[i], trace[j].thread, trace[j].command))
  }

  ghost predicate Inv(s: State) {
    && PlansOk(s.plans, s.trace) && TraceOk(s.trace)
    && RunsOk(s.gated, s.trace, s.runs) && OrderOk(s.gated, s.trace)
  }
}
