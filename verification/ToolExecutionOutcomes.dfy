/**
 What an execution that is over has done: a denial has ended its run, a request for approval has left a gate for exactly
 its operation, and an execution that reports success has called the tool. Over every interleaving.
 */
module ToolExecutionOutcomes {
  import opened Wrappers
  import opened Utf8
  import opened Framing
  import opened AgentRuns
  import opened Routing
  import opened ApprovalBinding
  import opened RunEffects
  import opened ToolExecution
  import opened ToolExecutionSafety
  import ToolExecutionTheorems

  /** What a decision owes the run it was recorded on. */
  ghost predicate Happened(trace: seq<Event>, ticket: Ticket, d: Decision) {
    && (d.status == Denied ==> RunEnded(ticket.call.runId) in trace)
    && (d.status == ApprovalRequired ==> exists g :: GateCreated(ticket.call.runId, g, ticket.binding) in trace)
  }

  /** The store call that was chosen for a decision: a denial fails the run, a request for approval adds a gate. */
  predicate Chosen(ticket: Ticket, d: Decision, op: Op) {
    && DecisionValid(d)
    && (d.status == Denied ==> op.Fail?)
    && (d.status == ApprovalRequired ==> op.AddApproval? && op.binding == ticket.binding)
    && (d.status == Allowed ==> op.AddLog? && op.level == LogAudit)
  }

  predicate InvokedBy(e: Event, t: nat, ticket: Ticket) { e.Invoked? && e.thread == t && e.ticket == ticket }

  ghost predicate OutcomeOk(trace: seq<Event>, t: nat, e: Execution) {
    match e.progress
    case Checked(d, op) => Chosen(e.ticket, d, op)
    case Routed(d, _, _) => Happened(trace, e.ticket, d)
    case Invoking => exists i :: 0 <= i < |trace| && InvokedBy(trace[i], t, e.ticket)
    case Finished(Recorded(d)) => DecisionValid(d) && d.status != Allowed && Happened(trace, e.ticket, d)
    case Finished(Executed) => exists i :: 0 <= i < |trace| && InvokedBy(trace[i], t, e.ticket)
    case _ => true
  }

  ghost predicate OutcomesOk(s: State) {
    forall t :: t in s.executions ==> OutcomeOk(s.trace, t, s.executions[t])
  }

  lemma OutcomeSurvives(before: seq<Event>, after: seq<Event>, t: nat, e: Execution)
    requires OutcomeOk(before, t, e) && before <= after
    ensures OutcomeOk(after, t, e)
  {
    assert forall p :: p in before ==> p in after;
    if i :| 0 <= i < |before| && InvokedBy(before[i], t, e.ticket) { assert InvokedBy(after[i], t, e.ticket); }
  }

  /** A step of thread t, or of nobody: everybody else's execution stays, the trace grows. */
  lemma StepKeepsOutcomes(s: State, after: State, t: nat)
    requires OutcomesOk(s) && s.trace <= after.trace
    requires forall u :: u in after.executions && u != t ==> u in s.executions && after.executions[u] == s.executions[u]
    requires t in after.executions ==> OutcomeOk(after.trace, t, after.executions[t])
    ensures OutcomesOk(after)
  {
    forall u | u in after.executions ensures OutcomeOk(after.trace, u, after.executions[u]) {
      if u != t { OutcomeSurvives(s.trace, after.trace, u, s.executions[u]); }
    }
  }

  lemma MoveKeepsOutcomes(s: State, t: nat, p: Progress)
    requires OutcomesOk(s) && t in s.executions && OutcomeOk(s.trace, t, s.executions[t].(progress := p))
    ensures OutcomesOk(Move(s, t, p))
  {
    StepKeepsOutcomes(s, Move(s, t, p), t);
  }

  lemma StopKeepsOutcomes(s: State, t: nat)
    requires OutcomesOk(s) && t in s.executions
    ensures OutcomesOk(Stop(s, t))
  {
    MoveKeepsOutcomes(s, t, Finished(Refused));
  }

  // ---- The steps ----

  lemma LookUpChooses(ticket: Ticket, d: Decision)
    requires DecisionValid(d) && RecordingOp(ticket, d).Some?
    ensures Chosen(ticket, d, RecordingOp(ticket, d).value)
  {
  }

  lemma LookUpKeepsOutcomes(s: State, t: nat, d: Decision)
    requires OutcomesOk(s) && t in s.executions
    ensures OutcomesOk(LookUpStep(s, t, s.executions[t], d))
  {
    var e := s.executions[t];
    StopKeepsOutcomes(s, t);
    if RecordCheck(e.ticket.call.runId, e.ticket.call.request, d).None? && RecordingOp(e.ticket, d).Some? {
      RecordCheckIsSound(e.ticket.call.runId, e.ticket.call.request, d);
      LookUpChooses(e.ticket, d);
      MoveKeepsOutcomes(s, t, Checked(d, RecordingOp(e.ticket, d).value));
    }
  }

  /** What the store call of a recorder shows the observer. */
  lemma CommitRecords(s: State, actor: Actor, ticket: Ticket, d: Decision, op: Op, at: Time)
    requires Core(s) && Chosen(ticket, d, op)
    ensures var (after, r) := Commit(s, actor, ticket.call.runId, op, at);
            s.trace <= after.trace && after.executions == s.executions && (r.Ok? ==> Happened(after.trace, ticket, d))
  {
    var id := ticket.call.runId;
    CommitKeepsCore(s, actor, id, op, at);
    CommitGrowsQuietly(s, actor, id, op, at, 0);
    CallsDoWhatTheySay(s.store, id, op, at);
    var r := Update(s.store, id, op, at).1;
    if r.Ok? {
      StoredIdIssued(s, id);
      CallRecords(actor, s.store.runs[id], r.value, ticket, d, op, at, s.trace);
    }
  }

  lemma CallRecords(actor: Actor, before: Run, after: Run, ticket: Ticket, d: Decision, op: Op, at: Time,
                    trace: seq<Event>)
    requires Chosen(ticket, d, op) && HasEffect(before, after, op, at) && before.id == ticket.call.runId
    ensures Happened(trace + EventsOf(actor, before, after, op), ticket, d)
  {
    var events := EventsOf(actor, before, after, op);
    if d.status == Denied {
      assert events == [RunEnded(after.id)];
      assert (trace + events)[|trace|] == RunEnded(ticket.call.runId);
    } else if d.status == ApprovalRequired {
      var e := GateCreated(ticket.call.runId, GateId(|before.approvals|), ticket.binding);
      assert events == [e];
      assert (trace + events)[|trace|] == e;
    }
  }

  lemma RecordKeepsOutcomes(s: State, t: nat, d: Decision, op: Op, at: Time)
    requires Core(s) && OutcomesOk(s) && t in s.executions && s.executions[t].progress == Checked(d, op)
    ensures OutcomesOk(RecordStep(s, t, s.executions[t], d, op, at))
  {
    var e := s.executions[t];
    assert OutcomeOk(s.trace, t, e);
    CommitRecords(s, Caller(t), e.ticket, d, op, at);
    var (after, r) := Commit(s, Caller(t), e.ticket.call.runId, op, at);
    StopKeepsOutcomes(s, t);
    if r.Ok? { StepKeepsOutcomes(s, Move(after, t, Routed(d, r.value, None)), t); }
  }

  lemma SpendKeepsOutcomes(s: State, t: nat, g: string, at: Time)
    requires Core(s) && OutcomesOk(s) && t in s.executions
    ensures OutcomesOk(SpendStep(s, t, s.executions[t], g, at))
  {
    var e := s.executions[t];
    var op := Consume(g, e.ticket.audit);
    CommitKeepsCore(s, Caller(t), e.ticket.call.runId, op, at);
    CommitGrowsQuietly(s, Caller(t), e.ticket.call.runId, op, at, t);
    var (after, r) := Commit(s, Caller(t), e.ticket.call.runId, op, at);
    StopKeepsOutcomes(s, t);
    if r.Ok? { StepKeepsOutcomes(s, Move(after, t, Routed(Allow(), r.value, Some(g))), t); }
  }

  lemma EventKeepsOutcomes(s: State, t: nat, p: Progress, e: Event)
    requires OutcomesOk(s) && t in s.executions && OutcomeOk(s.trace + [e], t, s.executions[t].(progress := p))
    ensures OutcomesOk(Move(s, t, p).(trace := s.trace + [e]))
  {
    StepKeepsOutcomes(s, Move(s, t, p).(trace := s.trace + [e]), t);
  }

  lemma RecheckKeepsOutcomes(s: State, t: nat, d: Decision, run: Run, gate: Option<string>)
    requires OutcomesOk(s) && t in s.executions && s.executions[t].progress == Routed(d, run, gate)
    ensures OutcomesOk(RecheckStep(s, t, s.executions[t], d, run, gate))
  {
    var e := s.executions[t];
    assert OutcomeOk(s.trace, t, e);
    StopKeepsOutcomes(s, t);
    if RouteValid(d, run, e.ticket.call) {
      if d.status != Allowed {
        MoveKeepsOutcomes(s, t, Finished(Recorded(d)));
      } else if e.ticket.call.runId in s.store.runs && run.logs != [] {
        var current := s.store.runs[e.ticket.call.runId];
        EventKeepsOutcomes(s, t, Ready(gate, LastLog(run), current), Rechecked(t, current));
      }
    }
  }

  lemma InvokeKeepsOutcomes(s: State, t: nat, gate: Option<string>, entry: LogEntry, seen: Run)
    requires OutcomesOk(s) && t in s.executions
    ensures OutcomesOk(InvokeStep(s, t, s.executions[t], gate, entry, seen))
  {
    var e := Invoked(t, s.executions[t].ticket, gate, entry, seen);
    assert InvokedBy((s.trace + [e])[|s.trace|], t, s.executions[t].ticket);
    EventKeepsOutcomes(s, t, Invoking, e);
  }

  lemma EarlyStepKeepsOutcomes(s: State, t: nat, a: Action)
    requires OutcomesOk(s) && t in s.executions
    requires a.Guard? || a.Authorizes? || a.Scan? || a.Return? || a.Abandon?
    ensures OutcomesOk(ThreadStep(s, t, a))
  {
    var after := ThreadStep(s, t, a);
    assert after.trace == s.trace;
    assert OutcomeOk(s.trace, t, s.executions[t]);
    StepKeepsOutcomes(s, after, t);
  }

  lemma ThreadStepKeepsOutcomes(s: State, t: nat, a: Action)
    requires Core(s) && OutcomesOk(s) && t in s.executions
    ensures OutcomesOk(ThreadStep(s, t, a))
  {
    var p := s.executions[t].progress;
    if a.Guard? || a.Authorizes? || a.Scan? || a.Return? || a.Abandon? {
      EarlyStepKeepsOutcomes(s, t, a);
    } else if a.LookUp? {
      if p.Authorized? || p.Unmatched? { LookUpKeepsOutcomes(s, t, p.decision); }
    } else if a.Record? {
      if p.Checked? { RecordKeepsOutcomes(s, t, p.decision, p.op, a.at); }
    } else if a.Spend? {
      if p.Matched? { SpendKeepsOutcomes(s, t, p.gateId, a.at); }
    } else if a.Recheck? {
      if p.Routed? { RecheckKeepsOutcomes(s, t, p.decision, p.run, p.gate); }
    } else if a.Invoke? {
      if p.Ready? { InvokeKeepsOutcomes(s, t, p.gate, p.entry, p.seen); }
    }
  }

  lemma OthersKeepOutcomes(s: State, after: State)
    requires OutcomesOk(s) && s.trace <= after.trace && after.executions == s.executions
    ensures OutcomesOk(after)
  {
    forall u | u in after.executions ensures OutcomeOk(after.trace, u, after.executions[u]) {
      OutcomeSurvives(s.trace, after.trace, u, s.executions[u]);
    }
  }

  lemma BeginKeepsOutcomes(s: State, t: nat, c: Call, guarded: bool)
    requires OutcomesOk(s)
    ensures OutcomesOk(ToolExecution.Apply(s, Begin(t, c, guarded)))
  {
    StepKeepsOutcomes(s, ToolExecution.Apply(s, Begin(t, c, guarded)), t);
  }

  lemma ActionKeepsOutcomes(s: State, a: Action)
    requires Core(s) && OutcomesOk(s)
    ensures OutcomesOk(ToolExecution.Apply(s, a))
  {
    if a.CreateRun? {
      OthersKeepOutcomes(s, CreateRunStep(s, a.req, a.at));
    } else if a.ChangeRun? {
      CommitKeepsCore(s, Environment, a.runId, a.op, a.at);
      CommitGrowsQuietly(s, Environment, a.runId, a.op, a.at, 0);
      OthersKeepOutcomes(s, Commit(s, Environment, a.runId, a.op, a.at).0);
    } else if a.Begin? {
      BeginKeepsOutcomes(s, a.thread, a.call, a.guarded);
    } else {
      ToolExecutionTheorems.ThreadActionIsStep(s, a);
      if a.thread in s.executions { ThreadStepKeepsOutcomes(s, a.thread, a); }
    }
  }

  lemma {:induction false} RunKeepsOutcomes(key: Bytes, maxRuns: int, actions: seq<Action>)
    requires RunsCreated(actions) < TWO_TO_64
    ensures OutcomesOk(ToolExecution.After(Initial(key, maxRuns), actions))
  {
    if actions != [] {
      var before := actions[..|actions| - 1];
      RunKeepsOutcomes(key, maxRuns, before);
      ToolExecutionTheorems.Reachable(key, maxRuns, before);
      ActionKeepsOutcomes(ToolExecution.After(Initial(key, maxRuns), before), actions[|actions| - 1]);
    }
  }

  // ---- The theorem ----

  /**
   In every run of the whole system: a caller told of a denial belongs to a run that has ended, a caller told to get
   approval to a gate created for exactly its operation, and a caller told of success has called the tool. Nobody is
   told that a call was allowed without it being made.
   */
  lemma OutcomesHaveHappened(key: Bytes, maxRuns: int, actions: seq<Action>, t: nat)
    requires RunsCreated(actions) < TWO_TO_64
    requires t in ToolExecution.After(Initial(key, maxRuns), actions).executions
    ensures var s := ToolExecution.After(Initial(key, maxRuns), actions);
            var e := s.executions[t];
            match e.progress
            case Finished(Recorded(d)) =>
              || (d.status == Denied && RunEnded(e.ticket.call.runId) in s.trace)
              || (d.status == ApprovalRequired
                  && exists g :: GateCreated(e.ticket.call.runId, g, e.ticket.binding) in s.trace)
            case Finished(Executed) => exists i :: 0 <= i < |s.trace| && InvokedBy(s.trace[i], t, e.ticket)
            case _ => true
  {
    RunKeepsOutcomes(key, maxRuns, actions);
    var s := ToolExecution.After(Initial(key, maxRuns), actions);
    assert OutcomeOk(s.trace, t, s.executions[t]);
  }
}
