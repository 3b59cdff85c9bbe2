/**
 What each call on the run store leaves behind, field by field, and exactly when it is refused. Nothing here is said
 through the functions that compute it.
 */
module RunEffects {
  import opened Wrappers
  import opened Utf8
  import opened Framing
  import opened AgentRuns
  import PatchPaths
  import Text

  /** The statuses of a run that is not over. */
  ghost predicate Live(run: Run) { run.status == Queued || run.status == Running || run.status == WaitingApproval }

  ghost predicate SomePends(gates: seq<Gate>) { exists i :: 0 <= i < |gates| && gates[i].status == Pending }

  ghost predicate WaitsOrPends(run: Run) { run.status == WaitingApproval || SomePends(run.approvals) }

  /** Exactly one new entry at the end of the log. */
  ghost predicate OneEntry(before: seq<LogEntry>, after: seq<LogEntry>, now: Time, level: LogLevel, message: string) {
    && |after| == |before| + 1 && after[..|before|] == before
    && after[|before|].at == now && after[|before|].level == level
    && after[|before|].message == TruncateText(message, MAX_LOG_MESSAGE)
  }

  /** Exactly one new audit entry, whatever it says. */
  ghost predicate OneAudit(before: seq<LogEntry>, after: seq<LogEntry>, now: Time) {
    && |after| == |before| + 1 && after[..|before|] == before
    && after[|before|].at == now && after[|before|].level == LogAudit
  }

  ghost predicate FirstGate(gates: seq<Gate>, i: int, id: string) {
    0 <= i < |gates| && gates[i].id == id && forall j :: 0 <= j < i ==> gates[j].id != id
  }

  // ---- The effects ----

  ghost predicate FailsRun(before: Run, after: Run, message: string, now: Time) {
    && after.status == Failed && after.completedAt == Some(now)
    && after.error == TruncateText(message, MAX_LOG_MESSAGE)
    && OneAudit(before.logs, after.logs, now)
    && after == before.(status := Failed, completedAt := Some(now), error := after.error, logs := after.logs,
                        updatedAt := now)
  }

  ghost predicate CancelsRun(before: Run, after: Run, now: Time) {
    && after.status == Canceled && after.canceled && after.completedAt == Some(now)
    && OneAudit(before.logs, after.logs, now)
    && after == before.(status := Canceled, canceled := true, completedAt := Some(now), logs := after.logs,
                        updatedAt := now)
  }

  /** The named status, with the start time of a first start, the completion time of an end and the cancel flag. */
  ghost predicate NamesStatus(before: Run, after: Run, status: Status, now: Time) {
    && after.status == status
    && after.startedAt == (if status == Running && before.startedAt.None? then Some(now) else before.startedAt)
    && after.completedAt == (if status in {Completed, Failed, Canceled} then Some(now) else None)
    && after.canceled == (status == Canceled)
    && after == before.(status := status, startedAt := after.startedAt, completedAt := after.completedAt,
                        canceled := after.canceled, updatedAt := now)
  }

  ghost predicate LogsEntry(before: Run, after: Run, level: LogLevel, message: string, now: Time) {
    && OneEntry(before.logs, after.logs, now, level, message)
    && after == before.(logs := after.logs, updatedAt := now)
  }

  /** One more gate, pending, and the run waits. */
  ghost predicate OpensGate(before: Run, after: Run, kind: ApprovalKind, summary: string, binding: Fingerprint,
                            now: Time)
  {
    && after.status == WaitingApproval && |after.approvals| == |before.approvals| + 1
    && after.approvals[..|before.approvals|] == before.approvals
    && (var gate := after.approvals[|before.approvals|];
        && gate.status == Pending && gate.kind == kind && gate.binding == binding
        && gate.summary == TruncateText(summary, MAX_LOG_MESSAGE)
        && gate.createdAt == now && gate.decidedAt.None? && gate.decidedBy == "")
    && after == before.(status := WaitingApproval, approvals := after.approvals, updatedAt := now)
  }

  ghost predicate SpendsBinding(before: Run, after: Run, gateId: string, message: string, now: Time) {
    && (exists i :: FirstGate(before.approvals, i, gateId)
          && before.approvals[i].status == Approved && before.approvals[i].binding != UNBOUND
          && after.approvals == before.approvals[i := before.approvals[i].(binding := UNBOUND)])
    && OneEntry(before.logs, after.logs, now, LogAudit, message)
    && after == before.(approvals := after.approvals, logs := after.logs, updatedAt := now)
  }

  ghost predicate AddsPatch(before: Run, after: Run, path: string, summary: string, diff: string, now: Time) {
    && |after.patches| == |before.patches| + 1 && after.patches[..|before.patches|] == before.patches
    && (var patch := after.patches[|before.patches|];
        && PatchPaths.Normalize(path) == Ok(patch.path) && patch.createdAt == now
        && patch.summary == TruncateText(summary, MAX_LOG_MESSAGE) && patch.diff == TruncateText(diff, MAX_PATCH_DIFF))
    && after == before.(patches := after.patches, updatedAt := now)
  }

  /** A rejection ends the run; an approval starts it if it waited for this gate alone, and else leaves its status. */
  ghost predicate DecidesGate(before: Run, after: Run, gateId: string, decision: ApprovalStatus, decidedBy: string,
                              now: Time)
  {
    && (exists i :: FirstGate(before.approvals, i, gateId) && before.approvals[i].status == Pending
          && after.approvals == before.approvals[i := before.approvals[i].(
               status := decision, decidedAt := Some(now), decidedBy := TruncateText(decidedBy, MAX_LOG_MESSAGE))])
    && OneAudit(before.logs, after.logs, now)
    && (if decision == Rejected then
          && after.status == Failed && after.completedAt == Some(now) && after.error == "approval gate rejected"
          && after.startedAt == before.startedAt
        else if before.status == WaitingApproval && !SomePends(after.approvals) then
          && after.status == Running && after.completedAt.None? && after.error == before.error
          && after.startedAt == (if before.startedAt.None? then Some(now) else before.startedAt)
        else
          && after.status == before.status && after.completedAt == before.completedAt && after.error == before.error
          && after.startedAt == before.startedAt)
    && after == before.(approvals := after.approvals, logs := after.logs, status := after.status, error := after.error,
                        completedAt := after.completedAt, startedAt := after.startedAt, updatedAt := now)
  }

  ghost predicate HasEffect(before: Run, after: Run, op: Op, now: Time) {
    match op
    case SetStatus(status) => NamesStatus(before, after, status, now)
    case Cancel => CancelsRun(before, after, now)
    case Fail(message) => FailsRun(before, after, message, now)
    case AddLog(level, message, _) => LogsEntry(before, after, level, message, now)
    case Consume(gateId, message) => SpendsBinding(before, after, gateId, message, now)
    case AddPatch(path, summary, diff) => AddsPatch(before, after, path, summary, diff, now)
    case AddApproval(kind, summary, binding) => OpensGate(before, after, kind, summary, binding, now)
    case Decide(gateId, decision, decidedBy) => DecidesGate(before, after, gateId, decision, decidedBy, now)
  }

  // ---- Each call has its effect ----

  lemma FailHasEffect(run: Run, message: string, now: Time)
    requires RunOk(run) && Live(run)
    ensures FailsRun(run, FailRun(run, message, now).(updatedAt := now), message, now)
  {
  }

  lemma CancelHasEffect(run: Run, now: Time)
    requires RunOk(run) && Live(run)
    ensures CancelsRun(run, CancelRun(run, now).(updatedAt := now), now)
  {
  }

  lemma SetStatusHasEffect(run: Run, status: Status, now: Time)
    requires RunOk(run) && Live(run) && ValidStatus(status)
    ensures NamesStatus(run, SetStatusRun(run, status, now).(updatedAt := now), status, now)
  {
  }

  lemma AddLogHasEffect(run: Run, level: LogLevel, message: string, now: Time)
    ensures LogsEntry(run, Logged(run, now, level, message).(updatedAt := now), level, message, now)
  {
  }

  lemma FirstGateIsFound(gates: seq<Gate>, id: string)
    ensures var i := FindGate(gates, id);
            if i < |gates| then FirstGate(gates, i, id) else forall g :: g in gates ==> g.id != id
    ensures forall i :: FirstGate(gates, i, id) ==> i == FindGate(gates, id)
  {
  }

  lemma ConsumeHasEffect(run: Run, gateId: string, message: string, now: Time)
    requires var i := FindGate(run.approvals, gateId);
             i < |run.approvals| && run.approvals[i].status == Approved && run.approvals[i].binding != UNBOUND
    ensures SpendsBinding(run, ConsumeAt(run, FindGate(run.approvals, gateId), message, now).(updatedAt := now),
                          gateId, message, now)
  {
    FirstGateIsFound(run.approvals, gateId);
    var i := FindGate(run.approvals, gateId);
    assert FirstGate(run.approvals, i, gateId);
  }

  lemma AddPatchHasEffect(run: Run, path: string, summary: string, diff: string, now: Time)
    requires PatchPaths.Normalize(path).Ok?
    ensures AddsPatch(run, AddPatchRun(run, path, summary, diff, now).(updatedAt := now), path, summary, diff, now)
  {
  }

  lemma AddApprovalHasEffect(run: Run, kind: ApprovalKind, summary: string, binding: Fingerprint, now: Time)
    ensures OpensGate(run, AddApprovalRun(run, kind, summary, binding, now).(updatedAt := now), kind, summary,
                      binding, now)
  {
  }

  lemma DecideHasEffect(run: Run, gateId: string, decision: ApprovalStatus, decidedBy: string, now: Time)
    requires RunOk(run) && Live(run) && (decision == Approved || decision == Rejected)
    requires var i := FindGate(run.approvals, gateId); i < |run.approvals| && run.approvals[i].status == Pending
    ensures var i := FindGate(run.approvals, gateId);
            DecidesGate(run, Settle(MarkGate(run, i, decision, decidedBy, now), decision, now).(updatedAt := now),
                        gateId, decision, decidedBy, now)
  {
    FirstGateIsFound(run.approvals, gateId);
    var i := FindGate(run.approvals, gateId);
    assert FirstGate(run.approvals, i, gateId);
    var after := Settle(MarkGate(run, i, decision, decidedBy, now), decision, now);
    PendsByIndex(after.approvals);
  }

  lemma PendsByIndex(gates: seq<Gate>)
    ensures HasPending(gates) <==> exists i :: 0 <= i < |gates| && gates[i].status == Pending
  {
  }

  lemma MutationHasEffect(run: Run, op: Op, now: Time)
    requires RunOk(run) && Precheck(op).None? && Mutate(run, op, now).Ok?
    ensures Live(run) && HasEffect(run, Mutate(run, op, now).value.(updatedAt := now), op, now)
  {
    if op.SetStatus? {
      SetStatusHasEffect(run, op.status, now);
    } else if op.Cancel? {
      CancelHasEffect(run, now);
    } else if op.Fail? {
      FailHasEffect(run, op.message, now);
    } else if op.AddLog? {
      AddLogHasEffect(run, op.level, op.message, now);
    } else if op.Consume? {
      ConsumeHasEffect(run, op.gateId, op.message, now);
    } else if op.AddPatch? {
      AddPatchHasEffect(run, op.path, op.summary, op.diff, now);
    } else if op.AddApproval? {
      AddApprovalHasEffect(run, op.kind, op.summary, op.binding, now);
    } else {
      DecideHasEffect(run, op.gateId, op.decision, op.decidedBy, now);
    }
  }

  /** A call that succeeds has found a live run, has exactly its effect on it and leaves every other run alone. */
  lemma CallsDoWhatTheySay(s: Store, id: string, op: Op, now: Time)
    requires StoreOk(s)
    ensures var (after, r) := Update(s, id, op, now);
            r.Ok? ==>
              && id in s.runs && Live(s.runs[id]) && HasEffect(s.runs[id], r.value, op, now)
              && after == s.(runs := s.runs[id := r.value])
  {
    UpdateTouchesOneRun(s, id, op, now);
    if Update(s, id, op, now).1.Ok? { MutationHasEffect(s.runs[id], op, now); }
  }

  // ---- Exactly when a call is refused ----

  ghost predicate BadInput(op: Op) {
    match op
    case SetStatus(status) => status !in {Queued, Running, WaitingApproval, Completed, Failed, Canceled}
    case AddLog(level, _, _) => level !in {LogInfo, LogWarn, LogError, LogAudit}
    case AddApproval(kind, _, _) => kind !in {FileWrite, Command, IacAction, CloudWrite, SecretRead, McpNetwork}
    case Decide(_, decision, _) => decision !in {Approved, Rejected}
    case AddPatch(path, _, _) => PatchPaths.Normalize(path) == Err(PatchPaths.PathRequired)
    case _ => false
  }

  ghost predicate BadBinding(op: Op) {
    && op.AddApproval? && !BadInput(op) && op.binding != UNBOUND && op.binding.Opaque?
    && !(1 <= |op.binding.value| <= 256 && forall c :: c in op.binding.value ==> 33 <= c as int <= 126)
  }

  ghost predicate BadPath(op: Op) { op.AddPatch? && PatchPaths.Normalize(op.path) == Err(PatchPaths.UnsafePath) }

  ghost predicate GoodInput(op: Op) { !BadInput(op) && !BadBinding(op) && !BadPath(op) }

  ghost predicate ReachesLiveRun(s: Store, id: string, op: Op) {
    GoodInput(op) && id in s.runs && Live(s.runs[id])
  }

  lemma InputIsChecked(op: Op)
    ensures Precheck(op) == Some(InvalidInput) <==> BadInput(op)
    ensures Precheck(op) == Some(InvalidBinding) <==> BadBinding(op)
    ensures Precheck(op) == Some(UnsafePatchPath) <==> BadPath(op)
    ensures Precheck(op).None? <==> GoodInput(op)
  {
  }

  ghost predicate NamesNoGate(run: Run, op: Op) {
    (op.Consume? || op.Decide?) && forall g :: g in run.approvals ==> g.id != op.gateId
  }

  ghost predicate NamesGate(run: Run, op: Op, g: Gate) {
    (op.Consume? || op.Decide?) && exists i :: FirstGate(run.approvals, i, op.gateId) && run.approvals[i] == g
  }

  /** What a closure refuses on a live run. */
  ghost predicate Refuses(run: Run, op: Op, e: RunError) {
    || (e == ApprovalPending && WaitsOrPends(run) && (op.Consume? || (op.AddLog? && op.refusePending)))
    || (e == ApprovalNotFound && NamesNoGate(run, op) && (op.Consume? ==> !WaitsOrPends(run)))
    || (e == BindingUnavailable && op.Consume? && !WaitsOrPends(run)
        && exists g :: NamesGate(run, op, g) && (g.status != Approved || g.binding == UNBOUND))
    || (e == ApprovalDecided && op.Decide? && exists g :: NamesGate(run, op, g) && g.status != Pending)
  }

  lemma ConsumeRefuses(run: Run, op: Op, now: Time, e: RunError)
    requires Live(run) && op.Consume?
    ensures Mutate(run, op, now) == Err(e) <==> Refuses(run, op, e)
  {
    PendsByIndex(run.approvals);
    FirstGateIsFound(run.approvals, op.gateId);
    var i := FindGate(run.approvals, op.gateId);
    if i < |run.approvals| { GateIsNamed(run, op, i); }
  }

  lemma DecideRefuses(run: Run, op: Op, now: Time, e: RunError)
    requires Live(run) && op.Decide?
    ensures Mutate(run, op, now) == Err(e) <==> Refuses(run, op, e)
  {
    FirstGateIsFound(run.approvals, op.gateId);
    var i := FindGate(run.approvals, op.gateId);
    if i < |run.approvals| { GateIsNamed(run, op, i); }
  }

  lemma GateIsNamed(run: Run, op: Op, i: nat)
    requires (op.Consume? || op.Decide?) && i < |run.approvals| && FirstGate(run.approvals, i, op.gateId)
    ensures !NamesNoGate(run, op) && forall g :: NamesGate(run, op, g) <==> g == run.approvals[i]
  {
    FirstGateIsFound(run.approvals, op.gateId);
    assert run.approvals[i] in run.approvals;
  }

  lemma ClosureRefuses(run: Run, op: Op, now: Time, e: RunError)
    requires Live(run)
    ensures Mutate(run, op, now) == Err(e) <==> Refuses(run, op, e)
  {
    if op.Consume? {
      ConsumeRefuses(run, op, now, e);
    } else if op.Decide? {
      DecideRefuses(run, op, now, e);
    } else {
      PendsByIndex(run.approvals);
    }
  }

  lemma UpdateRefuses(s: Store, id: string, op: Op, now: Time, e: RunError)
    ensures Update(s, id, op, now).1 == Err(e) <==>
              if Precheck(op).Some? then Precheck(op) == Some(e)
              else if id !in s.runs then e == NotFound
              else Mutate(s.runs[id], op, now) == Err(e)
  {
  }

  lemma OverIsTerminated(run: Run, op: Op, now: Time)
    requires RunOk(run) && !Live(run)
    ensures Mutate(run, op, now) == Err(Terminated)
  {
  }

  /** Every error, and exactly when a call on a store in order ends with it. */
  lemma CallsAreRefusedExactlyWhen(s: Store, id: string, op: Op, now: Time, e: RunError)
    requires StoreOk(s)
    ensures Update(s, id, op, now).1 == Err(e) <==>
              || (e == InvalidInput && BadInput(op)) || (e == InvalidBinding && BadBinding(op))
              || (e == UnsafePatchPath && BadPath(op))
              || (e == NotFound && GoodInput(op) && id !in s.runs)
              || (e == Terminated && GoodInput(op) && id in s.runs && !Live(s.runs[id]))
              || (ReachesLiveRun(s, id, op) && Refuses(s.runs[id], op, e))
  {
    InputIsChecked(op);
    UpdateRefuses(s, id, op, now, e);
    if id in s.runs {
      assert RunOk(s.runs[id]);
      if Live(s.runs[id]) { ClosureRefuses(s.runs[id], op, now, e); } else { OverIsTerminated(s.runs[id], op, now); }
    }
  }

  // ---- Creation ----

  /** A new run: queued, of the mode asked for or read-only, with nothing on it. */
  ghost predicate Fresh(req: CreateRequest, run: Run, now: Time) {
    && run.status == Queued && !run.canceled && run.createdAt == now && run.updatedAt == now
    && run.startedAt.None? && run.completedAt.None? && run.error == ""
    && run.logs == [] && run.patches == [] && run.approvals == []
    && run.mode == (if req.mode == OtherMode("") then ModeReadOnly else req.mode)
    && run.project == Text.TrimSpace(req.project)
    && run.providerId == TruncateText(Text.TrimSpace(req.providerId), MAX_LOG_MESSAGE)
    && run.createdBy == TruncateText(Text.TrimSpace(req.createdBy), MAX_LOG_MESSAGE)
    && run.promptPreview == TruncateText(req.prompt, MAX_PROMPT_PREVIEW)
  }

  /** A creation succeeds exactly with a project, a prompt and a known mode or none; the new run is fresh and stored. */
  lemma CreateDoesWhatItSays(s: Store, req: CreateRequest, now: Time)
    requires StoreOk(s) && s.next + 1 < TWO_TO_64
    ensures var (after, r) := CreateIn(s, req, now);
            && (r.Ok? <==> && !Text.Blank(req.project) && !Text.Blank(req.prompt)
                           && req.mode in {ModeReadOnly, ModeProposeOnly, ModeApprovedExecute, OtherMode("")})
            && (r.Err? ==> r == Err(InvalidInput) && after == s)
            && (r.Ok? ==> && Fresh(req, r.value, now) && r.value.id !in s.runs
                          && r.value.id in after.runs && after.runs[r.value.id] == r.value)
  {
    if Creatable(req) {
      var run := NewRun(RunId(s.next + 1), req, now);
      CreateInsertsThenEvicts(s, req, now);
      NewRunOk(RunId(s.next + 1), req, now);
      FreshId(s);
      NewestStays(s, run);
    }
  }

  lemma NewestStays(s: Store, run: Run)
    requires StoreOk(s) && NextNumber(s) == s.next + 1 && run.id == RunId(s.next + 1) && RunOk(run)
    ensures run.id in Evicted(Inserted(s, run)).runs && Evicted(Inserted(s, run)).runs[run.id] == run
  {
    InsertThenEvict(s, run);
    var added := Inserted(s, run);
    OneEvictionSuffices(added);
    if |added.order| > added.maxRuns {
      FreshId(s);
      assert added.order[0] == s.order[0];
    }
  }
}
