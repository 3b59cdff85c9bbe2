/**
 Agent runs: the run record with its approval gates and audit log, what each locked section of the
 run store does to it, and the life-cycle laws that every sequence of those sections keeps.
 */
module AgentRuns {
  import opened Wrappers
  import opened Utf8
  import opened Framing
  import PatchPaths
  import Text

  type Time = int

  const MAX_PROMPT_PREVIEW := 240
  const MAX_LOG_MESSAGE := 2000
  const MAX_PATCH_DIFF := 20000
  const MAX_BINDING := 256
  const DEFAULT_MAX_RUNS: nat := 100

  datatype Mode = ModeReadOnly | ModeProposeOnly | ModeApprovedExecute | OtherMode(text: string)

  datatype Status =
    | Queued | Running | WaitingApproval | Completed | Failed | Canceled
    | OtherStatus(text: string)

  datatype LogLevel = LogInfo | LogWarn | LogError | LogAudit | OtherLevel(text: string)

  datatype ApprovalKind =
    | FileWrite | Command | IacAction | CloudWrite | SecretRead | McpNetwork
    | OtherKind(text: string)

  datatype ApprovalStatus = Pending | Approved | Rejected | OtherDecision(text: string)

  datatype RunError =
    | InvalidInput | NotFound | Terminated | ApprovalPending | ApprovalNotFound
    | ApprovalDecided | BindingUnavailable | InvalidBinding | UnsafePatchPath

  datatype LogEntry = LogEntry(id: string, at: Time, level: LogLevel, message: string)

  datatype Patch = Patch(id: string, path: string, summary: string, diff: string, createdAt: Time)

  datatype Gate = Gate(
    id: string, kind: ApprovalKind, status: ApprovalStatus, summary: string, createdAt: Time,
    decidedAt: Option<Time>, decidedBy: string, binding: Fingerprint)

  datatype Run = Run(
    id: string, project: string, providerId: string, mode: Mode, status: Status,
    createdAt: Time, updatedAt: Time, startedAt: Option<Time>, completedAt: Option<Time>,
    promptPreview: string, createdBy: string, canceled: bool, error: string,
    logs: seq<LogEntry>, patches: seq<Patch>, approvals: seq<Gate>)

  datatype CreateRequest = CreateRequest(
    project: string, providerId: string, prompt: string, mode: Mode, createdBy: string)

  /** The state the store's mutex protects. */
  datatype Store = Store(runs: map<string, Run>, order: seq<string>, next: nat, maxRuns: nat)

  /** One call that changes a single run. */
  datatype Op =
    | SetStatus(status: Status)
    | Cancel
    | Fail(message: string)
    | AddLog(level: LogLevel, message: string, refusePending: bool)
    | Consume(gateId: string, message: string)
    | AddPatch(path: string, summary: string, diff: string)
    | AddApproval(kind: ApprovalKind, summary: string, binding: Fingerprint)
    | Decide(gateId: string, decision: ApprovalStatus, decidedBy: string)

  /** The zero binding: a gate that no operation is bound to. */
  const UNBOUND := Opaque("")

  predicate ValidMode(m: Mode) { !m.OtherMode? }

  predicate ValidStatus(s: Status) { !s.OtherStatus? }

  predicate Terminal(s: Status) { s == Completed || s == Failed || s == Canceled }

  /** A text binding is 1 to 256 printable non-space ASCII bytes; a computed MAC always renders as one. */
  predicate ValidBinding(b: Fingerprint) {
    b.Opaque? ==> 1 <= |b.value| <= MAX_BINDING && forall c :: c in b.value ==> '!' <= c <= '~'
  }

  predicate HasPending(gates: seq<Gate>) {
    exists g :: g in gates && g.status == Pending
  }

  function RunId(n: nat): string { "run_" + Text.Padded(n) }

  function GateId(index: nat): string { "approval_" + Text.Padded(index + 1) }

  function LogId(index: nat): string { "log_" + Text.Padded(index + 1) }

  function PatchId(index: nat): string { "patch_" + Text.Padded(index + 1) }

  lemma RunIdInjective(m: nat, n: nat)
    requires RunId(m) == RunId(n)
    ensures m == n
  {
    assert Text.Padded(m) == RunId(m)[4..] && Text.Padded(n) == RunId(n)[4..];
    Text.PaddedInjective(m, n);
  }

  lemma GateIdInjective(m: nat, n: nat)
    requires GateId(m) == GateId(n)
    ensures m == n
  {
    assert Text.Padded(m + 1) == GateId(m)[9..] && Text.Padded(n + 1) == GateId(n)[9..];
    Text.PaddedInjective(m + 1, n + 1);
  }

  /** Index of the first gate with this id, or the number of gates. */
  function FindGate(gates: seq<Gate>, id: string): (i: nat)
    ensures i <= |gates|
    ensures i < |gates| ==> gates[i].id == id
    ensures forall j :: 0 <= j < i ==> gates[j].id != id
  {
    if gates == [] || gates[0].id == id then 0 else 1 + FindGate(gates[1..], id)
  }

  function Logged(run: Run, now: Time, level: LogLevel, message: string): Run {
    run.(logs := run.logs + [LogEntry(LogId(|run.logs|), now, level, TruncateText(message, MAX_LOG_MESSAGE))])
  }

  function KindText(k: ApprovalKind): string {
    match k
    case FileWrite => "file_write"
    case Command => "command"
    case IacAction => "iac_action"
    case CloudWrite => "cloud_write"
    case SecretRead => "secret_read"
    case McpNetwork => "mcp_network"
    case OtherKind(text) => text
  }

  function DecisionText(s: ApprovalStatus): string {
    match s
    case Pending => "pending"
    case Approved => "approved"
    case Rejected => "rejected"
    case OtherDecision(text) => text
  }

  function PathProblem(path: string): Option<RunError> {
    match PatchPaths.Normalize(path)
    case Ok(_) => None
    case Err(PathRequired) => Some(InvalidInput)
    case Err(UnsafePath) => Some(UnsafePatchPath)
  }

  /** The path a patch is stored under; only paths that pass the check get that far. */
  function StoredPath(path: string): string {
    if PatchPaths.Normalize(path).Ok? then PatchPaths.Normalize(path).value else path
  }

  /** Checks made before the lock is taken. */
  function Precheck(op: Op): Option<RunError> {
    match op
    case SetStatus(status) => if ValidStatus(status) then None else Some(InvalidInput)
    case AddLog(level, _, _) => if level.OtherLevel? then Some(InvalidInput) else None
    case AddApproval(kind, _, binding) =>
      if kind.OtherKind? then Some(InvalidInput)
      else if binding != UNBOUND && !ValidBinding(binding) then Some(InvalidBinding)
      else None
    case Decide(_, decision, _) => if decision == Approved || decision == Rejected then None else Some(InvalidInput)
    case AddPatch(path, _, _) => PathProblem(path)
    case _ => None
  }

  function Finish(run: Run, status: Status, now: Time): Run {
    run.(status := status, completedAt := if run.completedAt.None? then Some(now) else run.completedAt)
  }

  function Started(run: Run, now: Time): Run {
    run.(startedAt := if run.startedAt.None? then Some(now) else run.startedAt)
  }

  function FailMessage(message: string): string {
    if message == "" then "Agent run failed." else "Agent run failed: " + message
  }

  function SetStatusRun(run: Run, status: Status, now: Time): Run {
    var moved := run.(status := status, canceled := run.canceled || status == Canceled);
    var started := if status == Running then Started(moved, now) else moved;
    if Terminal(status) then Finish(started, status, now) else started
  }

  function CancelRun(run: Run, now: Time): Run {
    Logged(Finish(run.(canceled := true), Canceled, now), now, LogAudit, "Agent run canceled.")
  }

  function FailRun(run: Run, message: string, now: Time): Run {
    var text := TruncateText(message, MAX_LOG_MESSAGE);
    Logged(Finish(run.(error := text), Failed, now), now, LogAudit, FailMessage(text))
  }

  function ConsumeAt(run: Run, i: nat, message: string, now: Time): Run
    requires i < |run.approvals|
  {
    Logged(run.(approvals := run.approvals[i := run.approvals[i].(binding := UNBOUND)]), now, LogAudit, message)
  }

  function AddPatchRun(run: Run, path: string, summary: string, diff: string, now: Time): Run {
    var patch := Patch(PatchId(|run.patches|), StoredPath(path), TruncateText(summary, MAX_LOG_MESSAGE),
                       TruncateText(diff, MAX_PATCH_DIFF), now);
    run.(patches := run.patches + [patch])
  }

  function AddApprovalRun(run: Run, kind: ApprovalKind, summary: string, binding: Fingerprint, now: Time): Run {
    var gate := Gate(GateId(|run.approvals|), kind, Pending, TruncateText(summary, MAX_LOG_MESSAGE), now, None, "",
                     binding);
    run.(approvals := run.approvals + [gate], status := WaitingApproval)
  }

  function DecisionMessage(gate: Gate, decision: ApprovalStatus): string {
    "Approval gate " + gate.id + " (" + KindText(gate.kind) + ") " + DecisionText(decision) + "."
  }

  /** Mark the gate at `i` and write the audit entry. */
  function MarkGate(run: Run, i: nat, decision: ApprovalStatus, decidedBy: string, now: Time): Run
    requires i < |run.approvals|
  {
    var gate := run.approvals[i].(status := decision, decidedAt := Some(now),
                                  decidedBy := TruncateText(decidedBy, MAX_LOG_MESSAGE));
    Logged(run.(approvals := run.approvals[i := gate]), now, LogAudit, DecisionMessage(gate, decision))
  }

  /** A rejection fails the run; the last approval a run waits for starts it. */
  function Settle(run: Run, decision: ApprovalStatus, now: Time): Run {
    if decision == Rejected then Finish(run.(error := "approval gate rejected"), Failed, now)
    else if run.status == WaitingApproval && !HasPending(run.approvals) then Started(run.(status := Running), now)
    else run
  }

  /** The closure each call runs on the stored record while it holds the lock. */
  function Mutate(run: Run, op: Op, now: Time): Result<Run, RunError> {
    if Terminal(run.status) then Err(Terminated) else
    match op
    case SetStatus(status) => Ok(SetStatusRun(run, status, now))
    case Cancel => Ok(CancelRun(run, now))
    case Fail(message) => Ok(FailRun(run, message, now))
    case AddLog(level, message, refusePending) =>
      if refusePending && (run.status == WaitingApproval || HasPending(run.approvals)) then Err(ApprovalPending)
      else Ok(Logged(run, now, level, message))
    case Consume(gateId, message) =>
      if run.status == WaitingApproval || HasPending(run.approvals) then Err(ApprovalPending)
      else
        var i := FindGate(run.approvals, gateId);
        if i == |run.approvals| then Err(ApprovalNotFound)
        else if run.approvals[i].status != Approved || run.approvals[i].binding == UNBOUND then Err(BindingUnavailable)
        else Ok(ConsumeAt(run, i, message, now))
    case AddPatch(path, summary, diff) => Ok(AddPatchRun(run, path, summary, diff, now))
    case AddApproval(kind, summary, binding) => Ok(AddApprovalRun(run, kind, summary, binding, now))
    case Decide(gateId, decision, decidedBy) =>
      var i := FindGate(run.approvals, gateId);
      if i == |run.approvals| then Err(ApprovalNotFound)
      else if run.approvals[i].status != Pending then Err(ApprovalDecided)
      else Ok(Settle(MarkGate(run, i, decision, decidedBy, now), decision, now))
  }

  /** One whole call: the check, the look-up, the closure and the time stamp. */
  function Update(s: Store, id: string, op: Op, now: Time): (Store, Result<Run, RunError>) {
    if Precheck(op).Some? then (s, Err(Precheck(op).value))
    else if id !in s.runs then (s, Err(NotFound))
    else match Mutate(s.runs[id], op, now)
      case Err(e) => (s, Err(e))
      case Ok(run) =>
        var stamped := run.(updatedAt := now);
        (s.(runs := s.runs[id := stamped]), Ok(stamped))
  }

  function NewRun(id: string, req: CreateRequest, now: Time): Run {
    Run(id, Text.TrimSpace(req.project), TruncateText(Text.TrimSpace(req.providerId), MAX_LOG_MESSAGE),
        if req.mode == OtherMode("") then ModeReadOnly else req.mode,
        Queued, now, now, None, None, TruncateText(req.prompt, MAX_PROMPT_PREVIEW),
        TruncateText(Text.TrimSpace(req.createdBy), MAX_LOG_MESSAGE), false, "", [], [], [])
  }

  predicate Creatable(req: CreateRequest) {
    && !Text.Blank(req.project) && !Text.Blank(req.prompt)
    && (ValidMode(req.mode) || req.mode == OtherMode(""))
  }

  /** Evict from the front until the limit holds. */
  function Evicted(s: Store): Store
    decreases |s.order|
  {
    if |s.order| > s.maxRuns then Evicted(s.(order := s.order[1..], runs := s.runs - {s.order[0]})) else s
  }

  /** The counter is a 64-bit unsigned integer. */
  function NextNumber(s: Store): nat { (s.next + 1) % TWO_TO_64 }

  /** The store between the insertion of a new run and the eviction that follows. */
  function Inserted(s: Store, run: Run): Store {
    s.(next := NextNumber(s), runs := s.runs[run.id := run], order := s.order + [run.id])
  }

  function CreateIn(s: Store, req: CreateRequest, now: Time): (Store, Result<Run, RunError>) {
    if !Creatable(req) then (s, Err(InvalidInput))
    else
      var run := NewRun(RunId(NextNumber(s)), req, now);
      (Evicted(Inserted(s, run)), Ok(run))
  }

  function NewStore(maxRuns: int): Store {
    Store(map[], [], 0, if maxRuns > 0 then maxRuns else DEFAULT_MAX_RUNS)
  }

  datatype StoreCall =
    | Create(req: CreateRequest, at: Time)
    | Change(id: string, op: Op, at: Time)

  function ApplyCall(s: Store, a: StoreCall): Store {
    match a
    case Create(req, at) => CreateIn(s, req, at).0
    case Change(id, op, at) => Update(s, id, op, at).0
  }

  function ApplyCalls(s: Store, calls: seq<StoreCall>): Store {
    if calls == [] then s else ApplyCall(ApplyCalls(s, calls[..|calls| - 1]), calls[|calls| - 1])
  }

  // ---- Life-cycle laws ----

  predicate GateOk(g: Gate) {
    && (g.status == Pending || g.status == Approved || g.status == Rejected)
    && (g.status == Pending <==> g.decidedAt.None?)
  }

  /** Gates are numbered in order, and a rejected one is found in failed runs only. */
  predicate GatesOk(gates: seq<Gate>, failed: bool) {
    && (forall g :: g in gates ==> GateOk(g) && (g.status == Rejected ==> failed))
    && (forall i :: 0 <= i < |gates| ==> gates[i].id == GateId(i))
  }

  predicate LogsOk(logs: seq<LogEntry>) {
    forall i :: 0 <= i < |logs| ==> logs[i].id == LogId(i)
  }

  predicate RunOk(r: Run) {
    && ValidStatus(r.status)
    && (Terminal(r.status) <==> r.completedAt.Some?)
    && (r.canceled <==> r.status == Canceled)
    && (r.status == Running ==> r.startedAt.Some?)
    && GatesOk(r.approvals, r.status == Failed)
    && LogsOk(r.logs)
  }

  function Min(a: nat, b: nat): nat { if a <= b then a else b }

  /** The ids are those of consecutive creations, ending with the latest. */
  predicate Consecutive(order: seq<string>, latest: nat) {
    |order| <= latest && forall i :: 0 <= i < |order| ==> order[i] == RunId(latest - |order| + 1 + i)
  }

  ghost predicate RunsOk(runs: map<string, Run>, order: seq<string>) {
    && (forall id :: id in order <==> id in runs)
    && (forall id :: id in runs ==> runs[id].id == id && RunOk(runs[id]))
  }

  /** The store holds exactly the most recently created runs, oldest first. */
  ghost predicate StoreOk(s: Store) {
    && s.maxRuns > 0
    && |s.order| == Min(s.next, s.maxRuns)
    && Consecutive(s.order, s.next)
    && RunsOk(s.runs, s.order)
  }

  /** What may become of a gate: decided once, and a cleared binding never returns. */
  predicate GateEvolves(g: Gate, h: Gate) {
    && h.id == g.id && h.kind == g.kind && h.summary == g.summary && h.createdAt == g.createdAt
    && (g.status != Pending ==> h.status == g.status && h.decidedAt == g.decidedAt && h.decidedBy == g.decidedBy)
    && (h.binding == g.binding || (h.binding == UNBOUND && h.status == Approved))
  }

  predicate GatesEvolve(a: seq<Gate>, b: seq<Gate>) {
    |a| <= |b| && forall i :: 0 <= i < |a| ==> GateEvolves(a[i], b[i])
  }

  /** What may become of a run: nothing once it is terminal, logs and patches only grow. */
  predicate Evolves(a: Run, b: Run) {
    && b.id == a.id && b.project == a.project && b.providerId == a.providerId && b.mode == a.mode
    && b.createdAt == a.createdAt && b.promptPreview == a.promptPreview && b.createdBy == a.createdBy
    && (Terminal(a.status) ==> b == a)
    && a.logs <= b.logs && a.patches <= b.patches
    && GatesEvolve(a.approvals, b.approvals)
  }

  /** What one successful closure owes: the laws of a run, and a run that has evolved. */
  ghost predicate Keeps(before: Run, after: Run) {
    RunOk(after) && Evolves(before, after)
  }

  lemma LoggedKeeps(base: Run, run: Run, now: Time, level: LogLevel, message: string)
    requires Keeps(base, run) && !Terminal(base.status)
    ensures Keeps(base, Logged(run, now, level, message))
  {
  }

  lemma FinishKeeps(base: Run, run: Run, status: Status, now: Time)
    requires RunOk(base) && !Terminal(base.status) && Terminal(status)
    requires run == base.(canceled := status == Canceled, error := run.error)
    ensures Keeps(base, Finish(run, status, now))
  {
  }

  lemma SetStatusKeeps(run: Run, status: Status, now: Time)
    requires RunOk(run) && !Terminal(run.status) && ValidStatus(status)
    ensures Keeps(run, SetStatusRun(run, status, now))
  {
  }

  lemma OneGateOk(gates: seq<Gate>, failed: bool, i: nat, gate: Gate, fails: bool)
    requires GatesOk(gates, failed) && i < |gates| && gate.id == gates[i].id
    requires GateOk(gate) && (gate.status == Rejected ==> fails) && (failed ==> fails)
    ensures GatesOk(gates[i := gate], fails)
  {
    forall g | g in gates[i := gate] ensures GateOk(g) && (g.status == Rejected ==> fails) {
      if g != gate { assert g in gates; }
    }
  }

  lemma OneGateEvolves(gates: seq<Gate>, i: nat, gate: Gate)
    requires i < |gates| && GateEvolves(gates[i], gate)
    ensures GatesEvolve(gates, gates[i := gate])
  {
  }

  lemma OneGateKeeps(run: Run, i: nat, gate: Gate)
    requires RunOk(run) && !Terminal(run.status) && i < |run.approvals|
    requires GateOk(gate) && gate.status != Rejected && GateEvolves(run.approvals[i], gate)
    ensures Keeps(run, run.(approvals := run.approvals[i := gate]))
  {
    OneGateOk(run.approvals, false, i, gate, false);
    OneGateEvolves(run.approvals, i, gate);
  }

  lemma AddApprovalKeeps(run: Run, kind: ApprovalKind, summary: string, binding: Fingerprint, now: Time)
    requires RunOk(run) && !Terminal(run.status)
    ensures Keeps(run, AddApprovalRun(run, kind, summary, binding, now))
  {
    var after := AddApprovalRun(run, kind, summary, binding, now);
    forall g | g in after.approvals ensures GateOk(g) && g.status != Rejected {
      if g != after.approvals[|run.approvals|] { assert g in run.approvals; }
    }
  }

  lemma ApprovalKeeps(run: Run, i: nat, decidedBy: string, now: Time)
    requires RunOk(run) && !Terminal(run.status) && i < |run.approvals| && run.approvals[i].status == Pending
    ensures Keeps(run, MarkGate(run, i, Approved, decidedBy, now))
  {
    var marked := MarkGate(run, i, Approved, decidedBy, now);
    OneGateKeeps(run, i, marked.approvals[i]);
    LoggedKeeps(run, run.(approvals := marked.approvals), now, LogAudit,
                DecisionMessage(marked.approvals[i], Approved));
  }

  lemma RejectionKeeps(run: Run, i: nat, decidedBy: string, now: Time)
    requires RunOk(run) && !Terminal(run.status) && i < |run.approvals| && run.approvals[i].status == Pending
    ensures Keeps(run, Settle(MarkGate(run, i, Rejected, decidedBy, now), Rejected, now))
  {
    var gate := MarkGate(run, i, Rejected, decidedBy, now).approvals[i];
    OneGateOk(run.approvals, false, i, gate, true);
    OneGateEvolves(run.approvals, i, gate);
  }

  lemma StartKeeps(base: Run, run: Run, now: Time)
    requires Keeps(base, run) && !Terminal(base.status) && run.status == WaitingApproval
    ensures Keeps(base, Started(run.(status := Running), now))
  {
  }

  lemma SettleKeeps(run: Run, i: nat, decision: ApprovalStatus, decidedBy: string, now: Time)
    requires RunOk(run) && !Terminal(run.status) && i < |run.approvals| && run.approvals[i].status == Pending
    requires decision == Approved || decision == Rejected
    ensures Keeps(run, Settle(MarkGate(run, i, decision, decidedBy, now), decision, now))
  {
    if decision == Rejected {
      RejectionKeeps(run, i, decidedBy, now);
    } else {
      ApprovalKeeps(run, i, decidedBy, now);
      var marked := MarkGate(run, i, decision, decidedBy, now);
      if marked.status == WaitingApproval { StartKeeps(run, marked, now); }
    }
  }

  lemma CancelKeeps(run: Run, now: Time)
    requires RunOk(run) && !Terminal(run.status)
    ensures Keeps(run, CancelRun(run, now))
  {
    FinishKeeps(run, run.(canceled := true), Canceled, now);
    LoggedKeeps(run, Finish(run.(canceled := true), Canceled, now), now, LogAudit, "Agent run canceled.");
  }

  lemma FailKeeps(run: Run, message: string, now: Time)
    requires RunOk(run) && !Terminal(run.status)
    ensures Keeps(run, FailRun(run, message, now))
  {
    var text := TruncateText(message, MAX_LOG_MESSAGE);
    FinishKeeps(run, run.(error := text), Failed, now);
    LoggedKeeps(run, Finish(run.(error := text), Failed, now), now, LogAudit, FailMessage(text));
  }

  lemma ConsumeKeeps(run: Run, i: nat, message: string, now: Time)
    requires RunOk(run) && !Terminal(run.status) && i < |run.approvals| && run.approvals[i].status == Approved
    ensures Keeps(run, ConsumeAt(run, i, message, now))
  {
    assert run.approvals[i] in run.approvals;
    var cleared := run.approvals[i].(binding := UNBOUND);
    OneGateKeeps(run, i, cleared);
    LoggedKeeps(run, run.(approvals := run.approvals[i := cleared]), now, LogAudit, message);
  }

  lemma AddPatchKeeps(run: Run, path: string, summary: string, diff: string, now: Time)
    requires RunOk(run) && !Terminal(run.status)
    ensures Keeps(run, AddPatchRun(run, path, summary, diff, now))
  {
  }

  lemma StayKeeps(run: Run)
    requires RunOk(run)
    ensures Keeps(run, run)
  {
  }

  lemma MutateKeeps(run: Run, op: Op, now: Time)
    requires RunOk(run) && Precheck(op).None? && Mutate(run, op, now).Ok?
    ensures !Terminal(run.status) && Keeps(run, Mutate(run, op, now).value)
  {
    match op
    case SetStatus(status) => SetStatusKeeps(run, status, now);
    case Cancel => CancelKeeps(run, now);
    case Fail(message) => FailKeeps(run, message, now);
    case AddLog(level, message, _) =>
      StayKeeps(run);
      LoggedKeeps(run, run, now, level, message);
    case Consume(gateId, message) => ConsumeKeeps(run, FindGate(run.approvals, gateId), message, now);
    case AddPatch(path, summary, diff) => AddPatchKeeps(run, path, summary, diff, now);
    case AddApproval(kind, summary, binding) => AddApprovalKeeps(run, kind, summary, binding, now);
    case Decide(gateId, decision, decidedBy) =>
      SettleKeeps(run, FindGate(run.approvals, gateId), decision, decidedBy, now);
  }

  lemma EvolvesTransitive(a: Run, b: Run, c: Run)
    requires Evolves(a, b) && Evolves(b, c)
    ensures Evolves(a, c)
  {
    forall i | 0 <= i < |a.approvals| ensures GateEvolves(a.approvals[i], c.approvals[i]) {
      assert GateEvolves(a.approvals[i], b.approvals[i]) && GateEvolves(b.approvals[i], c.approvals[i]);
    }
  }

  /** A call that fails changes nothing, and a call that succeeds changes one run only. */
  lemma UpdateTouchesOneRun(s: Store, id: string, op: Op, now: Time)
    ensures var (after, r) := Update(s, id, op, now);
            && (r.Err? ==> after == s)
            && (r.Ok? ==> id in s.runs && after == s.(runs := s.runs[id := r.value]) && !Terminal(s.runs[id].status))
  {
  }

  lemma StampKeeps(base: Run, run: Run, now: Time)
    requires Keeps(base, run) && !Terminal(base.status)
    ensures Keeps(base, run.(updatedAt := now))
  {
  }

  lemma PutKeeps(s: Store, id: string, run: Run)
    requires StoreOk(s) && id in s.runs && run.id == id && RunOk(run)
    ensures StoreOk(s.(runs := s.runs[id := run]))
  {
  }

  lemma UpdateKeeps(s: Store, id: string, op: Op, now: Time)
    requires StoreOk(s)
    ensures StoreOk(Update(s, id, op, now).0)
    ensures Update(s, id, op, now).1.Ok? ==> Keeps(s.runs[id], Update(s, id, op, now).1.value)
  {
    if Precheck(op).None? && id in s.runs && Mutate(s.runs[id], op, now).Ok? {
      var base, run := s.runs[id], Mutate(s.runs[id], op, now).value;
      MutateKeeps(base, op, now);
      StampKeeps(base, run, now);
      PutKeeps(s, id, run.(updatedAt := now));
    }
  }

  lemma ConsecutiveDistinct(order: seq<string>, latest: nat, i: nat, n: nat)
    requires Consecutive(order, latest) && i < |order|
    requires n != latest - |order| + 1 + i
    ensures order[i] != RunId(n)
  {
    if order[i] == RunId(n) { RunIdInjective(latest - |order| + 1 + i, n); }
  }

  lemma FreshId(s: Store)
    requires StoreOk(s)
    ensures RunId(s.next + 1) !in s.runs
  {
    forall i | 0 <= i < |s.order| ensures s.order[i] != RunId(s.next + 1) {
      ConsecutiveDistinct(s.order, s.next, i, s.next + 1);
    }
    assert RunId(s.next + 1) !in s.order;
  }

  lemma InsertKeeps(s: Store, run: Run)
    requires StoreOk(s) && NextNumber(s) == s.next + 1 && run.id == RunId(s.next + 1) && RunOk(run)
    ensures var t := Inserted(s, run); Consecutive(t.order, t.next) && RunsOk(t.runs, t.order)
  {
  }

  lemma OldestIsNotRepeated(order: seq<string>, latest: nat)
    requires Consecutive(order, latest) && order != []
    ensures Consecutive(order[1..], latest) && order[0] !in order[1..]
  {
    forall i | 0 <= i < |order[1..]| ensures order[1..][i] != order[0] {
      ConsecutiveDistinct(order, latest, i + 1, latest - |order| + 1);
    }
  }

  lemma DropOldestKeeps(runs: map<string, Run>, order: seq<string>)
    requires RunsOk(runs, order) && order != [] && order[0] !in order[1..]
    ensures RunsOk(runs - {order[0]}, order[1..])
  {
    assert forall id :: id in order <==> id == order[0] || id in order[1..];
  }

  function WithoutOldest(s: Store): Store
    requires s.order != []
  {
    s.(order := s.order[1..], runs := s.runs - {s.order[0]})
  }

  lemma OneEvictionSuffices(s: Store)
    requires |s.order| <= s.maxRuns + 1
    ensures Evicted(s) == if |s.order| > s.maxRuns then WithoutOldest(s) else s
  {
  }

  lemma InsertThenEvict(s: Store, run: Run)
    requires StoreOk(s) && NextNumber(s) == s.next + 1 && run.id == RunId(s.next + 1) && RunOk(run)
    ensures StoreOk(Evicted(Inserted(s, run)))
    ensures Evicted(Inserted(s, run)).next == s.next + 1 && Evicted(Inserted(s, run)).maxRuns == s.maxRuns
    ensures Evicted(Inserted(s, run)).runs.Keys <= s.runs.Keys + {run.id}
    ensures forall id :: id in s.runs && id in Evicted(Inserted(s, run)).runs && id != run.id ==>
              Evicted(Inserted(s, run)).runs[id] == s.runs[id]
    ensures run.id in Evicted(Inserted(s, run)).runs ==> Evicted(Inserted(s, run)).runs[run.id] == run
  {
    InsertKeeps(s, run);
    var added := Inserted(s, run);
    OneEvictionSuffices(added);
    if |added.order| > added.maxRuns {
      OldestIsNotRepeated(added.order, added.next);
      DropOldestKeeps(added.runs, added.order);
    }
  }

  function Creations(calls: seq<StoreCall>): nat {
    if calls == [] then 0
    else Creations(calls[..|calls| - 1]) + if calls[|calls| - 1].Create? then 1 else 0
  }

  /**
   The life-cycle invariant over every sequence of calls: terminal runs and only those carry a completion time,
   the cancel flag is the canceled status, a rejected gate means a failed run, and the store holds exactly the
   last `maxRuns` runs created. The counter is 64 bits wide, so fewer than 2^64 creations are considered.
   */
  lemma {:induction false} LifecycleInvariant(s: Store, calls: seq<StoreCall>)
    requires StoreOk(s) && s.next + Creations(calls) < TWO_TO_64
    ensures StoreOk(ApplyCalls(s, calls))
    ensures s.next <= ApplyCalls(s, calls).next <= s.next + Creations(calls)
    ensures ApplyCalls(s, calls).maxRuns == s.maxRuns
  {
    if calls != [] {
      var before, last := calls[..|calls| - 1], calls[|calls| - 1];
      LifecycleInvariant(s, before);
      StepKeepsStoreOk(ApplyCalls(s, before), last);
    }
  }

  /** What a step does to each stored run: it evolves, or it is new under an id never used before. */
  ghost predicate StepEffect(s: Store, t: Store) {
    && t.maxRuns == s.maxRuns
    && s.next <= t.next <= s.next + 1
    && forall id :: id in t.runs ==>
         if id in s.runs then Evolves(s.runs[id], t.runs[id]) else id == RunId(s.next + 1) && t.next == s.next + 1
  }

  lemma NewRunOk(id: string, req: CreateRequest, now: Time)
    ensures RunOk(NewRun(id, req, now)) && NewRun(id, req, now).id == id
  {
  }

  lemma CreateInsertsThenEvicts(s: Store, req: CreateRequest, now: Time)
    requires Creatable(req) && s.next + 1 < TWO_TO_64
    ensures NextNumber(s) == s.next + 1
    ensures var run := NewRun(RunId(s.next + 1), req, now);
            CreateIn(s, req, now) == (Evicted(Inserted(s, run)), Ok(run))
  {
    assert (s.next + 1) % TWO_TO_64 == s.next + 1;
  }

  lemma EvolvesReflexive(run: Run)
    ensures Evolves(run, run)
  {
  }

  lemma InsertionEffect(s: Store, run: Run)
    requires StoreOk(s) && NextNumber(s) == s.next + 1 && run.id == RunId(s.next + 1) && RunOk(run)
    ensures StoreOk(Evicted(Inserted(s, run))) && StepEffect(s, Evicted(Inserted(s, run)))
  {
    forall id | id in s.runs ensures Evolves(s.runs[id], s.runs[id]) { EvolvesReflexive(s.runs[id]); }
    FreshId(s);
    InsertThenEvict(s, run);
  }

  lemma CreateKeeps(s: Store, req: CreateRequest, now: Time)
    requires StoreOk(s) && s.next + 1 < TWO_TO_64
    ensures StoreOk(CreateIn(s, req, now).0) && StepEffect(s, CreateIn(s, req, now).0)
  {
    if Creatable(req) {
      CreateInsertsThenEvicts(s, req, now);
      NewRunOk(RunId(s.next + 1), req, now);
      InsertionEffect(s, NewRun(RunId(s.next + 1), req, now));
    } else {
      StayEffect(s);
    }
  }

  lemma StayEffect(s: Store)
    ensures StepEffect(s, s)
  {
    forall id | id in s.runs ensures Evolves(s.runs[id], s.runs[id]) { EvolvesReflexive(s.runs[id]); }
  }

  lemma PutEffect(s: Store, id: string, run: Run)
    requires id in s.runs && Evolves(s.runs[id], run)
    ensures StepEffect(s, s.(runs := s.runs[id := run]))
  {
    forall other | other in s.runs ensures Evolves(s.runs[other], s.runs[other]) { EvolvesReflexive(s.runs[other]); }
  }

  lemma ChangeEffect(s: Store, id: string, after: Store, r: Result<Run, RunError>)
    requires if r.Err? then after == s
             else id in s.runs && after == s.(runs := s.runs[id := r.value]) && Evolves(s.runs[id], r.value)
    ensures StepEffect(s, after) && after.next == s.next
  {
    if r.Err? { StayEffect(s); } else { PutEffect(s, id, r.value); }
  }

  lemma ChangeKeeps(s: Store, id: string, op: Op, now: Time)
    requires StoreOk(s)
    ensures StoreOk(Update(s, id, op, now).0) && StepEffect(s, Update(s, id, op, now).0)
    ensures Update(s, id, op, now).0.next == s.next
  {
    UpdateKeeps(s, id, op, now);
    UpdateTouchesOneRun(s, id, op, now);
    ChangeEffect(s, id, Update(s, id, op, now).0, Update(s, id, op, now).1);
  }

  lemma StepKeepsStoreOk(s: Store, a: StoreCall)
    requires StoreOk(s) && (a.Create? ==> s.next + 1 < TWO_TO_64)
    ensures StoreOk(ApplyCall(s, a)) && StepEffect(s, ApplyCall(s, a))
    ensures a.Change? ==> ApplyCall(s, a).next == s.next
  {
    match a
    case Create(req, at) => CreateKeeps(s, req, at);
    case Change(id, op, at) => ChangeKeeps(s, id, op, at);
  }

  /** A run stored under this id has evolved from the one stored there first; old ids name no other run. */
  ghost predicate Evolved(s: Store, t: Store, id: string)
    requires id in t.runs
  {
    && (id in s.runs ==> Evolves(s.runs[id], t.runs[id]))
    && (forall n :: 0 <= n <= s.next && id == RunId(n) ==> id in s.runs)
  }

  lemma OneStepEvolves(s: Store, middle: Store, t: Store, id: string)
    requires StoreOk(s) && s.next <= middle.next && StepEffect(middle, t) && id in t.runs
    requires id in middle.runs ==> Evolved(s, middle, id)
    requires id in s.runs ==> exists n :: 0 <= n <= s.next && id == RunId(n)
    ensures Evolved(s, t, id)
  {
    if id in middle.runs {
      if id in s.runs { EvolvesTransitive(s.runs[id], middle.runs[id], t.runs[id]); }
    } else {
      forall n | 0 <= n <= s.next ensures id != RunId(n) {
        if id == RunId(n) { RunIdInjective(n, middle.next + 1); }
      }
    }
  }

  lemma StoredIdIsOld(s: Store, id: string)
    requires StoreOk(s) && id in s.runs
    ensures exists n :: 0 <= n <= s.next && id == RunId(n)
  {
    var i :| 0 <= i < |s.order| && s.order[i] == id;
    assert id == RunId(s.next - |s.order| + 1 + i);
  }

  /**
   Over any sequence of calls a run that is still stored has only evolved: a terminal run is unchanged, gates
   were decided at most once, cleared bindings stayed clear and its log only grew. A run id that was handed out
   and evicted never names a run again.
   */
  lemma {:induction false} RunsOnlyEvolve(s: Store, calls: seq<StoreCall>, id: string)
    requires StoreOk(s) && s.next + Creations(calls) < TWO_TO_64
    requires id in ApplyCalls(s, calls).runs
    ensures id in s.runs ==> Evolves(s.runs[id], ApplyCalls(s, calls).runs[id])
    ensures forall n :: 0 <= n <= s.next && id == RunId(n) ==> id in s.runs
  {
    if calls == [] {
      if id in s.runs { EvolvesReflexive(s.runs[id]); }
    } else {
      var before, last := calls[..|calls| - 1], calls[|calls| - 1];
      var middle := ApplyCalls(s, before);
      LifecycleInvariant(s, before);
      StepKeepsStoreOk(middle, last);
      if id in middle.runs { RunsOnlyEvolve(s, before, id); }
      if id in s.runs { StoredIdIsOld(s, id); }
      OneStepEvolves(s, middle, ApplyCalls(s, calls), id);
    }
  }

  // ---- Waiting for approval ----

  predicate WaitingExactlyWhilePending(r: Run) {
    Terminal(r.status) || (r.status == WaitingApproval <==> HasPending(r.approvals))
  }

  lemma ConsumeWaits(run: Run, i: nat, message: string, now: Time)
    requires i < |run.approvals| && run.status != WaitingApproval && !HasPending(run.approvals)
    requires run.approvals[i].status == Approved
    ensures WaitingExactlyWhilePending(ConsumeAt(run, i, message, now))
  {
    var after := ConsumeAt(run, i, message, now);
    forall g | g in after.approvals ensures g.status != Pending {
      if g != after.approvals[i] { assert g in run.approvals; }
    }
  }

  lemma ApprovalWaits(run: Run, kind: ApprovalKind, summary: string, binding: Fingerprint, now: Time)
    ensures WaitingExactlyWhilePending(AddApprovalRun(run, kind, summary, binding, now))
  {
    var after := AddApprovalRun(run, kind, summary, binding, now);
    assert after.approvals[|run.approvals|] in after.approvals;
  }

  lemma DecisionWaits(run: Run, i: nat, decision: ApprovalStatus, decidedBy: string, now: Time)
    requires WaitingExactlyWhilePending(run) && !Terminal(run.status)
    requires i < |run.approvals| && run.approvals[i].status == Pending
    ensures WaitingExactlyWhilePending(Settle(MarkGate(run, i, decision, decidedBy, now), decision, now))
  {
    assert run.approvals[i] in run.approvals;
    assert MarkGate(run, i, decision, decidedBy, now).status == WaitingApproval;
  }

  /** Every call but SetStatus keeps a live run waiting exactly while a gate is pending. */
  lemma WaitingMeansPending(run: Run, op: Op, now: Time)
    requires RunOk(run) && WaitingExactlyWhilePending(run)
    requires Precheck(op).None? && Mutate(run, op, now).Ok?
    requires !op.SetStatus?
    ensures WaitingExactlyWhilePending(Mutate(run, op, now).value)
  {
    match op
    case AddApproval(kind, summary, binding) => ApprovalWaits(run, kind, summary, binding, now);
    case Consume(gateId, message) => ConsumeWaits(run, FindGate(run.approvals, gateId), message, now);
    case Decide(gateId, decision, decidedBy) =>
      DecisionWaits(run, FindGate(run.approvals, gateId), decision, decidedBy, now);
    case _ =>
  }

  /** SetStatus keeps it exactly when it ends the run or names the status the gates call for. */
  lemma SetStatusKeepsWaitingExactlyWhen(run: Run, status: Status, now: Time)
    requires ValidStatus(status) && !Terminal(run.status)
    ensures WaitingExactlyWhilePending(Mutate(run, SetStatus(status), now).value)
       <==> (Terminal(status) || (status == WaitingApproval <==> HasPending(run.approvals)))
  {
  }

  /** It does not always: a queued run told to wait has nothing to wait for. */
  lemma SetStatusCanBreakWaiting(req: CreateRequest, now: Time)
    ensures var run := NewRun(RunId(1), req, now);
            && WaitingExactlyWhilePending(run)
            && !WaitingExactlyWhilePending(Mutate(run, SetStatus(WaitingApproval), now).value)
  {
  }

  // ---- Waiting for approval, over histories ----

  ghost predicate AllWait(s: Store) {
    forall id :: id in s.runs ==> WaitingExactlyWhilePending(s.runs[id])
  }

  /** If the call sets a status, and may, it ends the run or names the status the gates of the run call for. */
  predicate Heeds(s: Store, a: StoreCall) {
    a.Change? && a.op.SetStatus? && Update(s, a.id, a.op, a.at).1.Ok? ==>
      && a.id in s.runs
      && (Terminal(a.op.status) || (a.op.status == WaitingApproval <==> HasPending(s.runs[a.id].approvals)))
  }

  lemma StampWaits(run: Run, now: Time)
    ensures WaitingExactlyWhilePending(run.(updatedAt := now)) == WaitingExactlyWhilePending(run)
  {
  }

  /** One change of one run: the changed run waits as it should exactly if the call heeds its gates. */
  lemma ChangeWaits(s: Store, a: StoreCall)
    requires StoreOk(s) && AllWait(s) && a.Change? && Update(s, a.id, a.op, a.at).1.Ok?
    ensures a.id in s.runs
    ensures WaitingExactlyWhilePending(Update(s, a.id, a.op, a.at).1.value) <==> Heeds(s, a)
  {
    var run := s.runs[a.id];
    assert WaitingExactlyWhilePending(run);
    StampWaits(Mutate(run, a.op, a.at).value, a.at);
    if a.op.SetStatus? {
      SetStatusKeepsWaitingExactlyWhen(run, a.op.status, a.at);
    } else {
      WaitingMeansPending(run, a.op, a.at);
    }
  }

  lemma InsertionWaits(s: Store, run: Run)
    requires StoreOk(s) && NextNumber(s) == s.next + 1 && run.id == RunId(s.next + 1) && RunOk(run)
    requires AllWait(s) && WaitingExactlyWhilePending(run)
    ensures AllWait(Evicted(Inserted(s, run)))
  {
    InsertThenEvict(s, run);
  }

  lemma CreateWaits(s: Store, req: CreateRequest, now: Time)
    requires StoreOk(s) && AllWait(s) && s.next + 1 < TWO_TO_64
    ensures AllWait(CreateIn(s, req, now).0)
  {
    if Creatable(req) {
      CreateInsertsThenEvicts(s, req, now);
      NewRunOk(RunId(s.next + 1), req, now);
      InsertionWaits(s, NewRun(RunId(s.next + 1), req, now));
    }
  }

  lemma CallWaits(s: Store, a: StoreCall)
    requires StoreOk(s) && AllWait(s) && (a.Create? ==> s.next + 1 < TWO_TO_64)
    ensures AllWait(ApplyCall(s, a)) <==> Heeds(s, a)
  {
    match a
    case Create(req, at) => CreateWaits(s, req, at);
    case Change(id, op, at) =>
      var (after, r) := Update(s, id, op, at);
      UpdateTouchesOneRun(s, id, op, at);
      if r.Ok? {
        ChangeWaits(s, a);
        assert after.runs[id] == r.value;
      }
  }

  /** All runs wait as they should, at the start and after each call. */
  ghost predicate AlwaysWait(s: Store, calls: seq<StoreCall>) {
    forall i :: 0 <= i <= |calls| ==> AllWait(ApplyCalls(s, calls[..i]))
  }

  /** Each call heeds the gates of the store it meets. */
  ghost predicate AlwaysHeeds(s: Store, calls: seq<StoreCall>) {
    forall i :: 0 <= i < |calls| ==> Heeds(ApplyCalls(s, calls[..i]), calls[i])
  }

  lemma AlwaysWaitSnoc(s: Store, before: seq<StoreCall>, last: StoreCall)
    ensures AlwaysWait(s, before + [last]) <==> AlwaysWait(s, before) && AllWait(ApplyCalls(s, before + [last]))
  {
    var calls := before + [last];
    assert forall i :: 0 <= i <= |before| ==> calls[..i] == before[..i];
    assert calls[..|calls|] == calls;
  }

  lemma AlwaysHeedsSnoc(s: Store, before: seq<StoreCall>, last: StoreCall)
    ensures AlwaysHeeds(s, before + [last]) <==> AlwaysHeeds(s, before) && Heeds(ApplyCalls(s, before), last)
  {
    var calls := before + [last];
    assert forall i :: 0 <= i <= |before| ==> calls[..i] == before[..i];
    assert before[..|before|] == before;
  }

  lemma AlwaysWaitAtTheEnd(s: Store, calls: seq<StoreCall>)
    requires AlwaysWait(s, calls)
    ensures AllWait(ApplyCalls(s, calls))
  {
    assert calls[..|calls|] == calls;
  }

  lemma ApplySnoc(s: Store, before: seq<StoreCall>, last: StoreCall)
    ensures ApplyCalls(s, before + [last]) == ApplyCall(ApplyCalls(s, before), last)
  {
    assert (before + [last])[..|before|] == before;
  }

  /** One more call: the store keeps waiting as it should exactly if that call heeds its gates. */
  lemma OneMoreCallWaits(s: Store, before: seq<StoreCall>, last: StoreCall)
    requires StoreOk(s) && s.next + Creations(before) + (if last.Create? then 1 else 0) < TWO_TO_64
    requires AlwaysWait(s, before)
    ensures AlwaysWait(s, before + [last]) <==> Heeds(ApplyCalls(s, before), last)
  {
    LifecycleInvariant(s, before);
    AlwaysWaitAtTheEnd(s, before);
    AlwaysWaitSnoc(s, before, last);
    ApplySnoc(s, before, last);
    CallWaits(ApplyCalls(s, before), last);
  }

  /**
   Over every sequence of calls: all stored runs wait exactly while a gate of theirs is pending, after each call,
   exactly if every status that was set ended its run or was the one its gates called for at that moment.
   */
  lemma {:induction false} RunsWaitWhilePendingExactlyWhen(s: Store, calls: seq<StoreCall>)
    requires StoreOk(s) && AllWait(s) && s.next + Creations(calls) < TWO_TO_64
    ensures AlwaysWait(s, calls) <==> AlwaysHeeds(s, calls)
  {
    if calls == [] {
      assert calls[..0] == [];
    } else {
      var before, last := calls[..|calls| - 1], calls[|calls| - 1];
      assert calls == before + [last];
      RunsWaitWhilePendingExactlyWhen(s, before);
      AlwaysWaitSnoc(s, before, last);
      AlwaysHeedsSnoc(s, before, last);
      if AlwaysWait(s, before) { OneMoreCallWaits(s, before, last); }
    }
  }
}
