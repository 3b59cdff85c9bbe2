/**
 Approval-gated tool execution as a protocol. Every look at the run store and every change of it is one atomic
 step; between the steps of one Execute call any other caller, approver or canceller may act. A run of the
 system is any sequence of actions, so a statement about all sequences is a statement about all interleavings.
 */
module ToolExecution {
  import opened Wrappers
  import opened Utf8
  import opened Framing
  import opened AgentRuns
  import opened Routing
  import opened ApprovalBinding

  datatype Actor = Environment | Caller(id: nat)

  /** One operation with what is computed from it alone: its binding under the executor's key, its audit message. */
  datatype Ticket = Ticket(call: Call, binding: Fingerprint, audit: string)

  function TicketFor(key: Bytes, c: Call): Ticket {
    Ticket(c, BindingFor(key, c), RouteMessage("Allowed", c.request))
  }

  /** What an observer of the whole system sees, in order. */
  datatype Event =
    | RunCreated(runId: string)
    | GateCreated(runId: string, gateId: string, binding: Fingerprint)
    | GateApproved(runId: string, gateId: string, binding: Fingerprint)
    | GateConsumed(actor: Actor, runId: string, gateId: string, binding: Fingerprint)
    | Audited(actor: Actor, runId: string, entry: LogEntry)
    | RunEnded(runId: string)
    | Rechecked(thread: nat, seen: Run)
    | Invoked(thread: nat, ticket: Ticket, gate: Option<string>, entry: LogEntry, seen: Run)

  datatype Outcome = Refused | Recorded(decision: Decision) | Executed

  /** How far one Execute call has come. */
  datatype Progress =
    | Arrived                                                    // before the active-run guard of the API
    | Started
    | Authorized(decision: Decision)
    | Matched(gateId: string)                                    // an approved gate fits, not yet spent
    | Unmatched(decision: Decision)                              // no approved gate fits
    | Checked(decision: Decision, op: Op)                        // about to record
    | Routed(decision: Decision, run: Run, gate: Option<string>) // recorded; `run` is the recorded copy
    | Ready(gate: Option<string>, entry: LogEntry, seen: Run)    // re-checked
    | Invoking
    | Finished(outcome: Outcome)

  datatype Execution = Execution(ticket: Ticket, progress: Progress)

  datatype State = State(key: Bytes, store: Store, executions: map<nat, Execution>, trace: seq<Event>)

  datatype Action =
    | CreateRun(req: CreateRequest, at: Time)
    | ChangeRun(runId: string, op: Op, at: Time)                 // anyone else's call on the store
    | Begin(thread: nat, call: Call, guarded: bool)
    | Guard(thread: nat)
    | Authorizes(thread: nat, policy: Option<Policy>, answer: Option<Entry>)
    | Scan(thread: nat)
    | LookUp(thread: nat)
    | Record(thread: nat, at: Time)
    | Spend(thread: nat, at: Time)
    | Recheck(thread: nat)
    | Invoke(thread: nat)
    | Return(thread: nat)
    | Abandon(thread: nat)                                       // the context ended, or a failure surfaced

  /** The guard of the API and the re-check of the executor ask the same of a run. */
  predicate ActiveRun(run: Run) {
    !run.canceled && (run.status == Queued || run.status == Running) && !HasPending(run.approvals)
  }

  predicate RouteValid(d: Decision, run: Run, c: Call) {
    DecisionValid(d) && run.id == c.runId && InScope(run, c.request) && (d.status == Allowed ==> ActiveRun(run))
  }

  /** Index of the first approved gate carrying this binding, or the number of gates. */
  function FirstBoundGate(gates: seq<Gate>, binding: Fingerprint): (i: nat)
    ensures i <= |gates|
    ensures i < |gates| ==> gates[i].status == Approved && gates[i].binding == binding
    ensures forall j :: 0 <= j < i ==> !(gates[j].status == Approved && gates[j].binding == binding)
  {
    if gates == [] || (gates[0].status == Approved && gates[0].binding == binding) then 0
    else 1 + FirstBoundGate(gates[1..], binding)
  }

  /** The one store call that records a decision; none for a risk without an approval kind. */
  function RecordingOp(ticket: Ticket, d: Decision): Option<Op> {
    var q := ticket.call.request;
    match d.status
    case Denied => Some(Fail(DenialMessage(q, d.reason)))
    case ApprovalRequired =>
      if KindFor(q.risk).None? then None
      else Some(AddApproval(KindFor(q.risk).value, RouteMessage("Authorize", q), ticket.binding))
    case Allowed => Some(AddLog(LogAudit, ticket.audit, true))
    case OtherVerdict(_) => None
  }

  function LastLog(run: Run): LogEntry
    requires run.logs != []
  {
    run.logs[|run.logs| - 1]
  }

  /** What a successful store call shows the observer. */
  function EventsOf(actor: Actor, before: Run, after: Run, op: Op): seq<Event> {
    (match op
     case AddApproval(_, _, binding) => [GateCreated(after.id, GateId(|before.approvals|), binding)]
     case Decide(gateId, decision, _) =>
       var i := FindGate(before.approvals, gateId);
       if decision == Approved && i < |before.approvals| then
         [GateApproved(after.id, gateId, before.approvals[i].binding)]
       else []
     case Consume(gateId, _) =>
       var i := FindGate(before.approvals, gateId);
       if i < |before.approvals| && after.logs != [] then
         [GateConsumed(actor, after.id, gateId, before.approvals[i].binding), Audited(actor, after.id, LastLog(after))]
       else []
     case AddLog(_, _, _) => if after.logs != [] then [Audited(actor, after.id, LastLog(after))] else []
     case _ => [])
    + (if Terminal(after.status) then [RunEnded(after.id)] else [])
  }

  function Commit(s: State, actor: Actor, runId: string, op: Op, at: Time): (State, Result<Run, RunError>) {
    var (store, r) := Update(s.store, runId, op, at);
    match r
    case Err(_) => (s, r)
    case Ok(run) =>
      if runId in s.store.runs then
        (s.(store := store, trace := s.trace + EventsOf(actor, s.store.runs[runId], run, op)), r)
      else (s, r)
  }

  function Move(s: State, t: nat, progress: Progress): State {
    if t in s.executions then s.(executions := s.executions[t := s.executions[t].(progress := progress)]) else s
  }

  function Stop(s: State, t: nat): State { Move(s, t, Finished(Refused)) }

  function StoredRun(s: State, c: Call): Option<Run> {
    if c.runId in s.store.runs then Some(s.store.runs[c.runId]) else None
  }

  /** The API's guard before the executor is called. */
  function GuardStep(s: State, t: nat, e: Execution): State {
    var run := StoredRun(s, e.ticket.call);
    if run.None? || !ActiveRun(run.value) then Stop(s, t) else Move(s, t, Started)
  }

  /** Validation of the operation, then the decision on policy and inventory as they are at this moment. */
  function AuthorizeStep(s: State, t: nat, e: Execution, policy: Option<Policy>, answer: Option<Entry>): State {
    if !Bindable(s.key, e.ticket.call) then Stop(s, t)
    else Move(s, t, Authorized(Authorize(policy, answer, e.ticket.call.request)))
  }

  /** Look for an approved gate bound to this operation in one snapshot of the run. */
  function ScanStep(s: State, t: nat, e: Execution, d: Decision): State {
    var run := StoredRun(s, e.ticket.call);
    if run.None? || !InScope(run.value, e.ticket.call.request) then Stop(s, t)
    else
      var i := FirstBoundGate(run.value.approvals, e.ticket.binding);
      if i < |run.value.approvals| then Move(s, t, Matched(run.value.approvals[i].id)) else Move(s, t, Unmatched(d))
  }

  /** The recorder's checks and its own look at the run. */
  function LookUpStep(s: State, t: nat, e: Execution, d: Decision): State {
    var run := StoredRun(s, e.ticket.call);
    var op := RecordingOp(e.ticket, d);
    if RecordCheck(e.ticket.call.runId, e.ticket.call.request, d).Some? || run.None?
       || !InScope(run.value, e.ticket.call.request) || op.None?
    then Stop(s, t)
    else Move(s, t, Checked(d, op.value))
  }

  function RecordStep(s: State, t: nat, e: Execution, d: Decision, op: Op, at: Time): State {
    var (after, r) := Commit(s, Caller(t), e.ticket.call.runId, op, at);
    if r.Err? then Stop(s, t) else Move(after, t, Routed(d, r.value, None))
  }

  function SpendStep(s: State, t: nat, e: Execution, gateId: string, at: Time): State {
    var (after, r) := Commit(s, Caller(t), e.ticket.call.runId, Consume(gateId, e.ticket.audit), at);
    if r.Err? then Stop(s, t) else Move(after, t, Routed(Allow(), r.value, Some(gateId)))
  }

  /** Validate the recorded route; an allowed one is validated again on a fresh copy of the run. */
  function RecheckStep(s: State, t: nat, e: Execution, d: Decision, run: Run, gate: Option<string>): State {
    var current := StoredRun(s, e.ticket.call);
    if !RouteValid(d, run, e.ticket.call) then Stop(s, t)
    else if d.status != Allowed then Move(s, t, Finished(Recorded(d)))
    else if current.None? || !RouteValid(d, current.value, e.ticket.call) || run.logs == [] then Stop(s, t)
    else Move(s, t, Ready(gate, LastLog(run), current.value)).(trace := s.trace + [Rechecked(t, current.value)])
  }

  function InvokeStep(s: State, t: nat, e: Execution, gate: Option<string>, entry: LogEntry, seen: Run): State {
    Move(s, t, Invoking).(trace := s.trace + [Invoked(t, e.ticket, gate, entry, seen)])
  }

  /** One step of thread `t`; an action that does not fit its progress changes nothing. */
  function ThreadStep(s: State, t: nat, a: Action): State
    requires t in s.executions
  {
    var e := s.executions[t];
    var p := e.progress;
    match a
    case Guard(_) => if p.Arrived? then GuardStep(s, t, e) else s
    case Authorizes(_, policy, answer) => if p.Started? then AuthorizeStep(s, t, e, policy, answer) else s
    case Scan(_) => if p.Authorized? && p.decision.status == ApprovalRequired then ScanStep(s, t, e, p.decision) else s
    case LookUp(_) =>
      if p.Unmatched? || (p.Authorized? && p.decision.status != ApprovalRequired) then LookUpStep(s, t, e, p.decision)
      else s
    case Record(_, at) => if p.Checked? then RecordStep(s, t, e, p.decision, p.op, at) else s
    case Spend(_, at) => if p.Matched? then SpendStep(s, t, e, p.gateId, at) else s
    case Recheck(_) => if p.Routed? then RecheckStep(s, t, e, p.decision, p.run, p.gate) else s
    case Invoke(_) => if p.Ready? then InvokeStep(s, t, e, p.gate, p.entry, p.seen) else s
    case Return(_) => if p.Invoking? then Move(s, t, Finished(Executed)) else s
    case Abandon(_) => if p.Finished? then s else Stop(s, t)
    case _ => s
  }

  function CreateRunStep(s: State, req: CreateRequest, at: Time): State {
    var (store, r) := CreateIn(s.store, req, at);
    match r
    case Err(_) => s
    case Ok(run) => s.(store := store, trace := s.trace + [RunCreated(run.id)])
  }

  function Apply(s: State, a: Action): State {
    match a
    case CreateRun(req, at) => CreateRunStep(s, req, at)
    case ChangeRun(runId, op, at) => Commit(s, Environment, runId, op, at).0
    case Begin(t, call, guarded) =>
      if t in s.executions || !Representable(call) then s
      else s.(executions := s.executions[t := Execution(TicketFor(s.key, call), if guarded then Arrived else Started)])
    case _ => if a.thread in s.executions then ThreadStep(s, a.thread, a) else s
  }

  function Initial(key: Bytes, maxRuns: int): State {
    State(key, NewStore(maxRuns), map[], [])
  }

  function After(s: State, actions: seq<Action>): State {
    if actions == [] then s else Apply(After(s, actions[..|actions| - 1]), actions[|actions| - 1])
  }

  function RunsCreated(actions: seq<Action>): nat {
    if actions == [] then 0
    else RunsCreated(actions[..|actions| - 1]) + if actions[|actions| - 1].CreateRun? then 1 else 0
  }
}
