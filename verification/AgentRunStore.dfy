/**
 The run store as the object it is: every method is one locked section that updates the fields in place.
 Each is proved to do to the state exactly what the life-cycle functions of AgentRuns say.
 */
module AgentRunStore {
  import opened Wrappers
  import opened AgentRuns
  import opened Utf8
  import opened Framing
  import PatchPaths
  import Text

  method HasPendingApprovals(gates: seq<Gate>) returns (found: bool)
    ensures found == HasPending(gates)
  {
    for i := 0 to |gates|
      invariant forall j :: 0 <= j < i ==> gates[j].status != Pending
    {
      if gates[i].status == Pending { return true; }
    }
    return false;
  }

  class RunStore {
    const maxRuns: nat
    var next: nat
    var runs: map<string, Run>
    var order: seq<string>

    function State(): Store
      reads this
    {
      Store(runs, order, next, maxRuns)
    }

    constructor (limit: int)
      ensures State() == NewStore(limit)
    {
      maxRuns := if limit > 0 then limit else DEFAULT_MAX_RUNS;
      next, runs, order := 0, map[], [];
    }

    method Create(req: CreateRequest, now: Time) returns (r: Result<Run, RunError>)
      modifies this
      ensures (State(), r) == CreateIn(old(State()), req, now)
    {
      if Text.Blank(req.project) || Text.Blank(req.prompt) { return Err(InvalidInput); }
      var mode := req.mode;
      if mode == OtherMode("") { mode := ModeReadOnly; }
      if !ValidMode(mode) { return Err(InvalidInput); }
      next := (next + 1) % TWO_TO_64;
      var id := RunId(next);
      var run := NewRun(id, req, now);
      runs := runs[id := run];
      order := order + [id];
      assert State() == Inserted(old(State()), run);
      EvictLocked();
      return Ok(run);
    }

    method EvictLocked()
      modifies this`order, this`runs
      ensures State() == Evicted(old(State()))
    {
      while |order| > maxRuns
        invariant Evicted(State()) == Evicted(old(State()))
        decreases |order|
      {
        var oldest := order[0];
        order := order[1..];
        runs := runs - {oldest};
      }
    }

    method Get(id: string) returns (r: Option<Run>)
      ensures r == if id in runs then Some(runs[id]) else None
    {
      if id !in runs { return None; }
      return Some(runs[id]);
    }

    method Stamp(id: string, run: Run, now: Time) returns (r: Result<Run, RunError>)
      modifies this`runs
      ensures runs == old(runs)[id := run.(updatedAt := now)] && r == Ok(run.(updatedAt := now))
    {
      runs := runs[id := run.(updatedAt := now)];
      return Ok(runs[id]);
    }

    method SetStatus(id: string, status: Status, now: Time) returns (r: Result<Run, RunError>)
      modifies this
      ensures (State(), r) == Update(old(State()), id, AgentRuns.SetStatus(status), now)
    {
      if !ValidStatus(status) { return Err(InvalidInput); }
      if id !in runs { return Err(NotFound); }
      var run := runs[id];
      if Terminal(run.status) { return Err(Terminated); }
      run := run.(status := status);
      if status == Running && run.startedAt.None? { run := run.(startedAt := Some(now)); }
      if status == Canceled { run := run.(canceled := true); }
      if Terminal(status) && run.completedAt.None? { run := run.(completedAt := Some(now)); }
      r := Stamp(id, run, now);
    }

    method Cancel(id: string, now: Time) returns (r: Result<Run, RunError>)
      modifies this
      ensures (State(), r) == Update(old(State()), id, AgentRuns.Cancel, now)
    {
      if id !in runs { return Err(NotFound); }
      var run := runs[id];
      if Terminal(run.status) { return Err(Terminated); }
      run := run.(canceled := true, status := Canceled);
      if run.completedAt.None? { run := run.(completedAt := Some(now)); }
      r := Stamp(id, Logged(run, now, LogAudit, "Agent run canceled."), now);
    }

    method Fail(id: string, message: string, now: Time) returns (r: Result<Run, RunError>)
      modifies this
      ensures (State(), r) == Update(old(State()), id, AgentRuns.Fail(message), now)
    {
      if id !in runs { return Err(NotFound); }
      var run := runs[id];
      if Terminal(run.status) { return Err(Terminated); }
      var failureMessage := TruncateText(message, MAX_LOG_MESSAGE);
      run := run.(status := Failed, error := failureMessage);
      if run.completedAt.None? { run := run.(completedAt := Some(now)); }
      r := Stamp(id, Logged(run, now, LogAudit, FailMessage(failureMessage)), now);
    }

    /** AddLog and AddLogIfNoPendingApprovals share this section. */
    method AddLog(id: string, level: LogLevel, message: string, refusePending: bool, now: Time)
      returns (r: Result<Run, RunError>)
      modifies this
      ensures (State(), r) == Update(old(State()), id, AgentRuns.AddLog(level, message, refusePending), now)
    {
      if level.OtherLevel? { return Err(InvalidInput); }
      if id !in runs { return Err(NotFound); }
      var run := runs[id];
      if Terminal(run.status) { return Err(Terminated); }
      if refusePending {
        var pending := HasPendingApprovals(run.approvals);
        if run.status == WaitingApproval || pending { return Err(ApprovalPending); }
      }
      r := Stamp(id, Logged(run, now, level, message), now);
    }

    method ConsumeApprovalBinding(id: string, approvalId: string, message: string, now: Time)
      returns (r: Result<Run, RunError>)
      modifies this
      ensures (State(), r) == Update(old(State()), id, Consume(approvalId, message), now)
    {
      if id !in runs { return Err(NotFound); }
      var run := runs[id];
      if Terminal(run.status) { return Err(Terminated); }
      var pending := HasPendingApprovals(run.approvals);
      if run.status == WaitingApproval || pending { return Err(ApprovalPending); }
      for i := 0 to |run.approvals|
        invariant forall j :: 0 <= j < i ==> run.approvals[j].id != approvalId
        invariant runs == old(runs)
      {
        var approval := run.approvals[i];
        if approval.id == approvalId {
          if approval.status != Approved || approval.binding == UNBOUND { return Err(BindingUnavailable); }
          run := run.(approvals := run.approvals[i := approval.(binding := UNBOUND)]);
          r := Stamp(id, Logged(run, now, LogAudit, message), now);
          return;
        }
      }
      return Err(ApprovalNotFound);
    }

    method AddPatch(id: string, path: string, summary: string, diff: string, now: Time)
      returns (r: Result<Run, RunError>)
      modifies this
      ensures (State(), r) == Update(old(State()), id, AgentRuns.AddPatch(path, summary, diff), now)
    {
      var normal := PatchPaths.Normalize(path);
      if normal == Err(PatchPaths.PathRequired) { return Err(InvalidInput); }
      if normal.Err? { return Err(UnsafePatchPath); }
      if id !in runs { return Err(NotFound); }
      var run := runs[id];
      if Terminal(run.status) { return Err(Terminated); }
      var patch := Patch(PatchId(|run.patches|), normal.value, TruncateText(summary, MAX_LOG_MESSAGE),
                         TruncateText(diff, MAX_PATCH_DIFF), now);
      r := Stamp(id, run.(patches := run.patches + [patch]), now);
    }

    method AddApproval(id: string, kind: ApprovalKind, summary: string, binding: Fingerprint, now: Time)
      returns (r: Result<Run, RunError>)
      modifies this
      ensures (State(), r) == Update(old(State()), id, AgentRuns.AddApproval(kind, summary, binding), now)
    {
      if kind.OtherKind? { return Err(InvalidInput); }
      if binding != UNBOUND && !ValidBinding(binding) { return Err(InvalidBinding); }
      if id !in runs { return Err(NotFound); }
      var run := runs[id];
      if Terminal(run.status) { return Err(Terminated); }
      var gate := Gate(GateId(|run.approvals|), kind, Pending, TruncateText(summary, MAX_LOG_MESSAGE), now, None, "",
                       binding);
      run := run.(approvals := run.approvals + [gate]);
      run := run.(status := WaitingApproval);
      r := Stamp(id, run, now);
    }

    method DecideApproval(id: string, approvalId: string, decision: ApprovalStatus, decidedBy: string, now: Time)
      returns (r: Result<Run, RunError>)
      modifies this
      ensures (State(), r) == Update(old(State()), id, Decide(approvalId, decision, decidedBy), now)
    {
      if decision != Approved && decision != Rejected { return Err(InvalidInput); }
      if id !in runs { return Err(NotFound); }
      var run := runs[id];
      if Terminal(run.status) { return Err(Terminated); }
      for i := 0 to |run.approvals|
        invariant forall j :: 0 <= j < i ==> run.approvals[j].id != approvalId
        invariant run == old(runs)[id] && runs == old(runs)
      {
        if run.approvals[i].id == approvalId {
          if run.approvals[i].status != Pending { return Err(ApprovalDecided); }
          run := MarkGate(run, i, decision, decidedBy, now);
          if decision == Rejected {
            run := run.(status := Failed, error := "approval gate rejected");
            if run.completedAt.None? { run := run.(completedAt := Some(now)); }
            r := Stamp(id, run, now);
            return;
          }
          var pending := HasPendingApprovals(run.approvals);
          if run.status == WaitingApproval && !pending {
            run := run.(status := Running);
            if run.startedAt.None? { run := run.(startedAt := Some(now)); }
          }
          r := Stamp(id, run, now);
          return;
        }
      }
      return Err(ApprovalNotFound);
    }
  }
}
