/**
 The executor, undisturbed, as a caller sees it: what each recorded decision leaves on the run, exactly when the
 external tool is called, and what the caller is told otherwise. Runs, gates and requests are told field by field.
 */
module ExecutorTheorems {
  import opened Wrappers
  import opened Utf8
  import opened AgentRuns
  import opened Routing
  import opened RoutingAnswers
  import opened ApprovalBinding
  import opened RunEffects
  import opened ToolExecution
  import opened Executor

  // ---- What a decision leaves on its run ----

  ghost predicate LeavesOnRun(key: Bytes, c: Call, d: Decision, before: Run, after: Run, at: Time) {
    match d.status
    case Denied => FailsRun(before, after, DenialMessage(c.request, d.reason), at)
    case ApprovalRequired =>
      && c.request.risk in APPROVAL_KINDS
      && OpensGate(before, after, APPROVAL_KINDS[c.request.risk], RouteMessage("Authorize", c.request),
                   BindingFor(key, c), at)
    case Allowed => LogsEntry(before, after, LogAudit, RouteMessage("Allowed", c.request), at)
    case OtherVerdict(_) => false
  }

  lemma RecordingOpLeaves(key: Bytes, c: Call, d: Decision, before: Run, after: Run, at: Time)
    requires var op := RecordingOp(TicketFor(key, c), d); op.Some? && HasEffect(before, after, op.value, at)
    ensures LeavesOnRun(key, c, d, before, after, at)
  {
    KindsAreTabled(c.request.risk);
  }

  /**
   A denial fails the run, a request for approval opens one gate for the operation, an allowance is one audit entry.
   */
  lemma RecordingsLeave(key: Bytes, store: Store, c: Call, d: Decision, at: Time)
    requires StoreOk(store)
    ensures var (after, r) := RecordResult(store, TicketFor(key, c), d, at);
            if r.Err? then after == store
            else
              && c.runId in store.runs && r.value.decision == d && r.value.gate.None?
              && after == store.(runs := store.runs[c.runId := r.value.run])
              && LeavesOnRun(key, c, d, store.runs[c.runId], r.value.run, at)
  {
    var op := RecordingOp(TicketFor(key, c), d);
    if Recordable(store, c, d) && op.Some? {
      CallsDoWhatTheySay(store, c.runId, op.value, at);
      UpdateTouchesOneRun(store, c.runId, op.value, at);
      var r := Update(store, c.runId, op.value, at).1;
      if r.Ok? { RecordingOpLeaves(key, c, d, store.runs[c.runId], r.value, at); }
    }
  }

  /** The run a request names, as the request expects it: same project, provider and mode. */
  ghost predicate Scoped(store: Store, c: Call) {
    && c.runId in store.runs
    && store.runs[c.runId].project == c.request.project && store.runs[c.runId].providerId == c.request.providerId
    && store.runs[c.runId].mode == c.request.mode
  }

  /** A decision is recorded exactly on a live run in scope, an allowance only if nothing waits for approval there. */
  lemma RecordsExactlyWhen(key: Bytes, store: Store, c: Call, d: Decision, at: Time)
    requires StoreOk(store)
    ensures RecordResult(store, TicketFor(key, c), d, at).1.Ok? <==>
              && RecordCheck(c.runId, c.request, d).None? && Scoped(store, c) && Live(store.runs[c.runId])
              && (d.status == ApprovalRequired ==> c.request.risk in APPROVAL_KINDS)
              && (d.status == Allowed ==> !WaitsOrPends(store.runs[c.runId]))
  {
    KindsAreTabled(c.request.risk);
    var op := RecordingOp(TicketFor(key, c), d);
    if Recordable(store, c, d) && op.Some? { RecordingCallSucceeds(store, c, d, op.value, at, key); }
    if RecordCheck(c.runId, c.request, d).None? { RecordCheckIsSound(c.runId, c.request, d); }
  }

  lemma RecordingCallSucceeds(store: Store, c: Call, d: Decision, op: Op, at: Time, key: Bytes)
    requires StoreOk(store) && c.runId in store.runs && RecordingOp(TicketFor(key, c), d) == Some(op)
    ensures Update(store, c.runId, op, at).1.Ok? <==>
              Live(store.runs[c.runId]) && (d.status == Allowed ==> !WaitsOrPends(store.runs[c.runId]))
  {
    KindsAreTabled(c.request.risk);
    assert GoodInput(op);
    OnlyRefusalsFail(store, c.runId, op, at);
  }

  /** A call fails exactly for one of the reasons listed. */
  lemma OnlyRefusalsFail(store: Store, id: string, op: Op, at: Time)
    requires StoreOk(store) && GoodInput(op) && id in store.runs
    ensures Update(store, id, op, at).1.Ok? <==>
              Live(store.runs[id]) && forall e :: !Refuses(store.runs[id], op, e)
  {
    forall e ensures Update(store, id, op, at).1 == Err(e) <==>
                       || (e == Terminated && !Live(store.runs[id]))
                       || (Live(store.runs[id]) && Refuses(store.runs[id], op, e))
    {
      CallsAreRefusedExactlyWhen(store, id, op, at, e);
    }
    var r := Update(store, id, op, at).1;
    if r.Err? { assert r == Err(r.error); }
  }

  // ---- Exactly when the tool is called ----

  /** Fit to be worked on: queued or running, not canceled, no gate pending. */
  ghost predicate Active(run: Run) {
    && !run.canceled && (run.status == Queued || run.status == Running)
    && forall i :: 0 <= i < |run.approvals| ==> run.approvals[i].status != Pending
  }

  /** The run holds an approved gate for exactly this operation. */
  ghost predicate Approved(key: Bytes, run: Run, c: Call) {
    exists i :: 0 <= i < |run.approvals| && run.approvals[i].status == ApprovalStatus.Approved
                && run.approvals[i].binding == BindingFor(key, c)
  }

  /** The decision of this moment lets the call through: outright, or because it was approved. */
  ghost predicate LetThrough(key: Bytes, store: Store, c: Call, d: Decision)
    requires c.runId in store.runs
  {
    d.status == Allowed || (d.status == ApprovalRequired && Approved(key, store.runs[c.runId], c))
  }

  lemma ActiveByIndex(run: Run)
    ensures ActiveRun(run) <==> Active(run)
    ensures Active(run) ==> Live(run) && !WaitsOrPends(run)
  {
    PendsByIndex(run.approvals);
  }

  /** A route that may be invoked on the store it left. */
  ghost predicate RouteInvocable(result: (Store, Result<RouteResult, ()>), c: Call) {
    result.1.Ok? && Invocable(result.0, c, result.1.value.decision, result.1.value.run)
  }

  lemma RecordedInvocable(key: Bytes, store: Store, c: Call, d: Decision, at: Time)
    requires StoreOk(store) && RecordCheck(c.runId, c.request, d).None?
    ensures RouteInvocable(RecordResult(store, TicketFor(key, c), d, at), c)
       <==> Scoped(store, c) && d.status == Allowed && Active(store.runs[c.runId])
  {
    RecordsExactlyWhen(key, store, c, d, at);
    RecordingsLeave(key, store, c, d, at);
    RecordCheckIsSound(c.runId, c.request, d);
    var r := RecordResult(store, TicketFor(key, c), d, at).1;
    if c.runId in store.runs { ActiveByIndex(store.runs[c.runId]); }
    if r.Ok? { ActiveByIndex(r.value.run); }
  }

  lemma BoundGateIsApproved(key: Bytes, run: Run, c: Call)
    ensures FirstBoundGate(run.approvals, BindingFor(key, c)) < |run.approvals| <==> Approved(key, run, c)
  {
  }

  /** The gate found is the first with its id, for the ids of a run differ. */
  lemma GateIsFirst(run: Run, i: nat)
    requires RunOk(run) && i < |run.approvals|
    ensures FirstGate(run.approvals, i, run.approvals[i].id)
  {
    forall j | 0 <= j < i ensures run.approvals[j].id != run.approvals[i].id {
      if run.approvals[j].id == run.approvals[i].id { GateIdInjective(j, i); }
    }
  }

  lemma SpendSucceeds(store: Store, c: Call, i: nat, message: string, at: Time)
    requires StoreOk(store) && c.runId in store.runs && i < |store.runs[c.runId].approvals|
    requires var g := store.runs[c.runId].approvals[i]; g.status == ApprovalStatus.Approved && g.binding != UNBOUND
    ensures Update(store, c.runId, Consume(store.runs[c.runId].approvals[i].id, message), at).1.Ok? <==>
              Live(store.runs[c.runId]) && !WaitsOrPends(store.runs[c.runId])
  {
    var run := store.runs[c.runId];
    var op := Consume(run.approvals[i].id, message);
    GateIsFirst(run, i);
    GateIsNamed(run, op, i);
    OnlyRefusalsFail(store, c.runId, op, at);
    if WaitsOrPends(run) { assert Refuses(run, op, ApprovalPending); }
  }

  lemma SpentInvocable(key: Bytes, store: Store, c: Call, i: nat, at: Time)
    requires StoreOk(store) && Scoped(store, c) && i < |store.runs[c.runId].approvals|
    requires var g := store.runs[c.runId].approvals[i];
             g.status == ApprovalStatus.Approved && g.binding == BindingFor(key, c)
    ensures RouteInvocable(SpendResult(store, TicketFor(key, c), store.runs[c.runId].approvals[i].id, at), c)
       <==> Active(store.runs[c.runId])
  {
    var run := store.runs[c.runId];
    var op := Consume(run.approvals[i].id, RouteMessage("Allowed", c.request));
    SpendSucceeds(store, c, i, RouteMessage("Allowed", c.request), at);
    CallsDoWhatTheySay(store, c.runId, op, at);
    ActiveByIndex(run);
    var (after, r) := Update(store, c.runId, op, at);
    if r.Ok? {
      SpentStaysActive(run, r.value, run.approvals[i].id, RouteMessage("Allowed", c.request), at);
      StoredRunKeepsScope(store, c, r.value, run.approvals[i].id, RouteMessage("Allowed", c.request), at);
      InvocableIsActive(after, c, r.value);
    }
    SpentRoute(key, store, c, run.approvals[i].id, at, after, r);
  }

  lemma SpentRoute(key: Bytes, store: Store, c: Call, gateId: string, at: Time, after: Store, r: Result<Run, RunError>)
    requires (after, r) == Update(store, c.runId, Consume(gateId, RouteMessage("Allowed", c.request)), at)
    ensures SpendResult(store, TicketFor(key, c), gateId, at) == (after, RouteOf(r, Allow(), Some(gateId)))
  {
  }

  lemma StoredRunKeepsScope(store: Store, c: Call, run: Run, gateId: string, message: string, at: Time)
    requires StoreOk(store) && Scoped(store, c) && SpendsBinding(store.runs[c.runId], run, gateId, message, at)
    ensures run.id == c.runId && InScope(run, c.request)
  {
  }

  /** An outright allowance for the stored run in scope may be invoked exactly while that run is active. */
  lemma InvocableIsActive(store: Store, c: Call, run: Run)
    requires c.runId in store.runs && store.runs[c.runId] == run && run.id == c.runId && InScope(run, c.request)
    ensures Invocable(store, c, Allow(), run) <==> Active(run)
  {
    ActiveByIndex(run);
  }

  lemma SpentStaysActive(before: Run, after: Run, gateId: string, message: string, at: Time)
    requires SpendsBinding(before, after, gateId, message, at)
    ensures Active(after) <==> Active(before)
  {
    var i :| FirstGate(before.approvals, i, gateId) && before.approvals[i].status == ApprovalStatus.Approved
             && before.approvals[i].binding != UNBOUND
             && after.approvals == before.approvals[i := before.approvals[i].(binding := UNBOUND)];
    assert forall j :: 0 <= j < |before.approvals| ==> after.approvals[j].status == before.approvals[j].status;
  }

  /** The gate search spends the approved gate of the operation if there is one, and leaves the rest to the recorder. */
  lemma SearchIs(key: Bytes, store: Store, c: Call, d: Decision, at: Time)
    ensures var i := BoundGate(key, store, c);
            SearchResult(store, TicketFor(key, c), d, at) ==
            if d.status != ApprovalRequired then RecordResult(store, TicketFor(key, c), d, at)
            else if !Scoped(store, c) then (store, Err(()))
            else if !Approved(key, store.runs[c.runId], c) then RecordResult(store, TicketFor(key, c), d, at)
            else SpendResult(store, TicketFor(key, c), GateAt(store, c, i), at)
  {
    if c.runId in store.runs { BoundGateIsApproved(key, store.runs[c.runId], c); }
  }

  function BoundGate(key: Bytes, store: Store, c: Call): nat {
    if c.runId in store.runs then FirstBoundGate(store.runs[c.runId].approvals, BindingFor(key, c)) else 0
  }

  function GateAt(store: Store, c: Call, i: nat): string {
    if c.runId in store.runs && i < |store.runs[c.runId].approvals| then store.runs[c.runId].approvals[i].id else ""
  }

  lemma SearchInvocable(key: Bytes, store: Store, c: Call, d: Decision, at: Time)
    requires StoreOk(store) && RecordCheck(c.runId, c.request, d).None?
    ensures RouteInvocable(SearchResult(store, TicketFor(key, c), d, at), c)
       <==> Scoped(store, c) && Active(store.runs[c.runId]) && LetThrough(key, store, c, d)
  {
    SearchIs(key, store, c, d, at);
    RecordedInvocable(key, store, c, d, at);
    if d.status == ApprovalRequired && Scoped(store, c) {
      BoundGateIsApproved(key, store.runs[c.runId], c);
      if Approved(key, store.runs[c.runId], c) { SpentInvocable(key, store, c, BoundGate(key, store, c), at); }
    }
  }

  lemma RoutingInvocable(key: Bytes, store: Store, c: Call, policy: Option<Policy>, answer: Option<Entry>, at: Time)
    requires StoreOk(store)
    ensures RouteInvocable(RoutingResult(key, store, TicketFor(key, c), policy, answer, at), c)
       <==> && Bindable(key, c) && Scoped(store, c) && Active(store.runs[c.runId])
            && LetThrough(key, store, c, Authorize(policy, answer, c.request))
  {
    if Bindable(key, c) {
      RecorderAcceptsAuthorize(policy, answer, c.request, c.runId);
      SearchInvocable(key, store, c, Authorize(policy, answer, c.request), at);
    }
  }

  // ---- What the caller is told ----

  /** A route whose decision is reported and not acted on. */
  ghost predicate RouteReported(result: (Store, Result<RouteResult, ()>), c: Call, d: Decision) {
    result.1.Ok? && result.1.value.decision == d && RouteOutcome(c, d, result.1.value.run) == Recorded(d)
  }

  lemma RecordedReports(key: Bytes, store: Store, c: Call, d: Decision, at: Time, told: Decision)
    requires StoreOk(store) && RecordCheck(c.runId, c.request, d).None?
    requires d.status == ApprovalRequired ==> c.request.risk in APPROVAL_KINDS
    ensures RouteReported(RecordResult(store, TicketFor(key, c), d, at), c, told) <==>
              told == d && d.status != Allowed && Scoped(store, c) && Live(store.runs[c.runId])
  {
    RecordsExactlyWhen(key, store, c, d, at);
    RecordingsLeave(key, store, c, d, at);
    RecordCheckIsSound(c.runId, c.request, d);
  }

  lemma SpentIsNotReported(key: Bytes, store: Store, c: Call, gateId: string, at: Time, told: Decision)
    ensures !RouteReported(SpendResult(store, TicketFor(key, c), gateId, at), c, told)
  {
    var (after, r) := Update(store, c.runId, Consume(gateId, RouteMessage("Allowed", c.request)), at);
    SpentRoute(key, store, c, gateId, at, after, r);
  }

  /** The decision is one to report: a denial, or an approval that is required and not there. */
  ghost predicate Reportable(key: Bytes, store: Store, c: Call, d: Decision)
    requires c.runId in store.runs
  {
    d.status == Denied || (d.status == ApprovalRequired && !Approved(key, store.runs[c.runId], c))
  }

  lemma SearchReports(key: Bytes, store: Store, c: Call, d: Decision, at: Time, told: Decision)
    requires StoreOk(store) && RecordCheck(c.runId, c.request, d).None?
    requires d.status == ApprovalRequired ==> c.request.risk in APPROVAL_KINDS
    ensures RouteReported(SearchResult(store, TicketFor(key, c), d, at), c, told) <==>
              told == d && Scoped(store, c) && Live(store.runs[c.runId]) && Reportable(key, store, c, d)
  {
    RecordedReports(key, store, c, d, at, told);
    RecordCheckIsSound(c.runId, c.request, d);
    SearchIs(key, store, c, d, at);
    SpentIsNotReported(key, store, c, GateAt(store, c, BoundGate(key, store, c)), at, told);
  }

  lemma RoutingReports(key: Bytes, store: Store, c: Call, policy: Option<Policy>, answer: Option<Entry>, at: Time,
                       told: Decision)
    requires StoreOk(store)
    ensures RouteReported(RoutingResult(key, store, TicketFor(key, c), policy, answer, at), c, told) <==>
              && Bindable(key, c) && told == Authorize(policy, answer, c.request)
              && Scoped(store, c) && Live(store.runs[c.runId]) && Reportable(key, store, c, told)
  {
    if Bindable(key, c) {
      RecorderAcceptsAuthorize(policy, answer, c.request, c.runId);
      KindsAreTabled(c.request.risk);
      SearchReports(key, store, c, Authorize(policy, answer, c.request), at, told);
    }
  }

  lemma RoutesHaveLogs(key: Bytes, store: Store, c: Call, d: Decision, at: Time)
    requires StoreOk(store)
    ensures var r := SearchResult(store, TicketFor(key, c), d, at).1;
            r.Ok? && r.value.decision.status == Allowed ==> r.value.run.logs != []
  {
    RecordingsLeave(key, store, c, d, at);
    SearchIs(key, store, c, d, at);
    var gateId, message := GateAt(store, c, BoundGate(key, store, c)), RouteMessage("Allowed", c.request);
    var (after, r) := Update(store, c.runId, Consume(gateId, message), at);
    AllowedRoutesHaveLogs(store, c.runId, Consume(gateId, message), at);
    SpentRoute(key, store, c, gateId, at, after, r);
  }

  /** The last steps, told through what the route allows. */
  lemma FinalOutcomeIs(store: Store, c: Call, route: RouteResult, live: nat, toolOk: bool)
    ensures var outcome := FinalOutcome(store, c, route.decision, route.run, live, toolOk);
            var invocable := Invocable(store, c, route.decision, route.run);
            && (outcome == Executed <==> invocable && live >= 4 && toolOk)
            && (forall d :: outcome == Recorded(d) <==>
                  route.decision == d && RouteOutcome(c, d, route.run) == Recorded(d))
  {
  }

  /** Undisturbed, with `result` what routing came to. */
  lemma ExecutionFollowsRouting(key: Bytes, store: Store, c: Call, policy: Option<Policy>, answer: Option<Entry>,
                                at: Time, live: nat, toolOk: bool)
    requires StoreOk(store) && live >= 1
    ensures var result := RoutingResult(key, store, TicketFor(key, c), policy, answer, at);
            var s := ExecuteSteps(Alone(key, store, c), policy, answer, at, live, toolOk);
            && 0 in s.executions
            && ((exists e :: e in s.trace && e.Invoked?) <==> live >= 3 && RouteInvocable(result, c))
            && (s.executions[0].progress == Finished(Executed) <==> live >= 4 && toolOk && RouteInvocable(result, c))
            && (forall d :: s.executions[0].progress == Finished(Recorded(d)) <==> RouteReported(result, c, d))
  {
    var ticket := TicketFor(key, c);
    var alone := Alone(key, store, c);
    RouteStepsAre(alone, ticket, policy, answer, at);
    var routed := RouteSteps(alone, policy, answer, at);
    var result := RoutingResult(key, store, ticket, policy, answer, at);
    if Bindable(key, c) { RoutesHaveLogs(key, store, c, Authorize(policy, answer, c.request), at); }
    FinalFollows(alone, routed, ticket, result, live, toolOk);
  }

  lemma FinalFollows(alone: State, routed: State, ticket: Ticket, result: (Store, Result<RouteResult, ()>),
                     live: nat, toolOk: bool)
    requires LeavesWith(alone, routed, ticket, result) && alone.trace == [] && live >= 1
    requires result.1.Ok? && result.1.value.decision.status == Allowed ==> result.1.value.run.logs != []
    ensures var s := FinalSteps(routed, live, toolOk); var c := ticket.call;
            && 0 in s.executions
            && ((exists e :: e in s.trace && e.Invoked?) <==> live >= 3 && RouteInvocable(result, c))
            && (s.executions[0].progress == Finished(Executed) <==> live >= 4 && toolOk && RouteInvocable(result, c))
            && (forall d :: s.executions[0].progress == Finished(Recorded(d)) <==> RouteReported(result, c, d))
  {
    if result.1.Err? {
      FinalStepsOfFinished(routed, ticket, Refused, live, toolOk);
    } else {
      var route := result.1.value;
      FinalStepsOfRouted(routed, ticket, route.decision, route.run, route.gate, live, toolOk);
      FinalOutcomeIs(result.0, ticket.call, route, live, toolOk);
    }
  }

  /**
   One undisturbed execution. The external tool is called exactly if the operation is well formed, its run is in scope
   and active, the decision of the moment lets it through, outright or on an approved gate for exactly this operation,
   and the context is still open at the third look.
   */
  lemma ToolIsCalledExactlyWhen(key: Bytes, store: Store, c: Call, policy: Option<Policy>, answer: Option<Entry>,
                                at: Time, live: nat, toolOk: bool)
    requires StoreOk(store)
    ensures var s := ExecuteSteps(Alone(key, store, c), policy, answer, at, live, toolOk);
            (exists e :: e in s.trace && e.Invoked?) <==>
              && live >= 3 && Bindable(key, c) && Scoped(store, c) && Active(store.runs[c.runId])
              && LetThrough(key, store, c, Authorize(policy, answer, c.request))
  {
    if live == 0 {
      AbandonAlone(Alone(key, store, c), TicketFor(key, c), Started);
    } else {
      ExecutionFollowsRouting(key, store, c, policy, answer, at, live, toolOk);
      RoutingInvocable(key, store, c, policy, answer, at);
    }
  }

  /**
   What that execution reports: success exactly if the tool was called, answered well and the context was open after it;
   the decision exactly if it is a denial or an approval still missing, and could be recorded on a live run in scope;
   and a refusal otherwise.
   */
  lemma ExecutionReportsExactly(key: Bytes, store: Store, c: Call, policy: Option<Policy>, answer: Option<Entry>,
                                at: Time, live: nat, toolOk: bool, d: Decision)
    requires StoreOk(store)
    ensures var s := ExecuteSteps(Alone(key, store, c), policy, answer, at, live, toolOk);
            && 0 in s.executions
            && (s.executions[0].progress == Finished(Executed) <==>
                  && live >= 4 && toolOk && Bindable(key, c) && Scoped(store, c) && Active(store.runs[c.runId])
                  && LetThrough(key, store, c, Authorize(policy, answer, c.request)))
            && (s.executions[0].progress == Finished(Recorded(d)) <==>
                  && live >= 1 && d == Authorize(policy, answer, c.request) && Bindable(key, c)
                  && Scoped(store, c) && Live(store.runs[c.runId]) && Reportable(key, store, c, d))
  {
    if live == 0 {
      AbandonAlone(Alone(key, store, c), TicketFor(key, c), Started);
    } else {
      ExecutionFollowsRouting(key, store, c, policy, answer, at, live, toolOk);
      RoutingInvocable(key, store, c, policy, answer, at);
      RoutingReports(key, store, c, policy, answer, at, d);
    }
  }

  /**
   The guard of the API, amid everything else that goes on: an execution gets past it exactly if its run is there, not
   canceled, queued or running, and without a pending gate; otherwise it is refused, and nobody else is affected.
   */
  lemma GuardAdmitsExactlyWhen(s: State, t: nat)
    requires t in s.executions && s.executions[t].progress.Arrived?
    ensures var e := s.executions[t]; var runId := e.ticket.call.runId;
            var admitted := runId in s.store.runs && Active(s.store.runs[runId]);
            Apply(s, Guard(t)) ==
            s.(executions := s.executions[t := e.(progress := if admitted then Started else Finished(Refused))])
  {
    var runId := s.executions[t].ticket.call.runId;
    if runId in s.store.runs { ActiveByIndex(s.store.runs[runId]); }
  }
}
