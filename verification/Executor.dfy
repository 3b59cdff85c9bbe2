/**
 The executor as the sequence of effects it is, over the store object. Undisturbed, one Execute call is
 exactly the steps of the protocol in order, so what is proved of every interleaving covers this code.
 */
module Executor {
  import opened Wrappers
  import opened Utf8
  import opened AgentRuns
  import opened AgentRunStore
  import opened Routing
  import opened ApprovalBinding
  import opened ToolExecution

  /** The protocol state in which thread 0 is about to run alone. */
  function Alone(key: Bytes, store: Store, c: Call): State {
    State(key, store, map[0 := Execution(TicketFor(key, c), Started)], [])
  }

  /** From the gate search on, undisturbed; a step that does not fit the progress is skipped. */
  function SearchSteps(s: State, at: Time): State {
    var spent := ToolExecution.Apply(ToolExecution.Apply(s, Scan(0)), Spend(0, at));
    ToolExecution.Apply(ToolExecution.Apply(spent, LookUp(0)), Record(0, at))
  }

  /** Routing, undisturbed. */
  function RouteSteps(s: State, policy: Option<Policy>, answer: Option<Entry>, at: Time): State {
    SearchSteps(ToolExecution.Apply(s, Authorizes(0, policy, answer)), at)
  }

  /** The whole call: `live` is how many of its looks at the context find it still open. */
  function ExecuteSteps(s: State, policy: Option<Policy>, answer: Option<Entry>, at: Time, live: nat,
                        toolOk: bool): State {
    if live == 0 then ToolExecution.Apply(s, Abandon(0))
    else FinalSteps(RouteSteps(s, policy, answer, at), live, toolOk)
  }

  /** Only thread 0 exists, with this ticket and progress. */
  predicate Solo(s: State, ticket: Ticket, p: Progress) {
    s.executions == map[0 := Execution(ticket, p)]
  }

  datatype RouteResult = RouteResult(decision: Decision, run: Run, gate: Option<string>)

  /** A recorded run as a route. */
  function RouteOf(r: Result<Run, RunError>, d: Decision, gate: Option<string>): Result<RouteResult, ()> {
    match r case Err(_) => Err(()) case Ok(run) => Ok(RouteResult(d, run, gate))
  }

  /** One store call made to record a decision: the store after it and the route it leads to. */
  function CallResult(store: Store, runId: string, op: Op, at: Time, d: Decision, gate: Option<string>)
    : (Store, Result<RouteResult, ()>)
  {
    var (after, r) := Update(store, runId, op, at);
    (after, RouteOf(r, d, gate))
  }

  /** What the gate search leads to. */
  function ScanProgress(store: Store, ticket: Ticket, d: Decision): Progress {
    var c := ticket.call;
    if c.runId !in store.runs || !InScope(store.runs[c.runId], c.request) then Finished(Refused)
    else
      var gates := store.runs[c.runId].approvals;
      var i := FirstBoundGate(gates, ticket.binding);
      if i < |gates| then Matched(gates[i].id) else Unmatched(d)
  }

  /** The recorder's checks and its look at the run. */
  predicate Recordable(store: Store, c: Call, d: Decision) {
    RecordCheck(c.runId, c.request, d).None? && c.runId in store.runs && InScope(store.runs[c.runId], c.request)
  }

  /** What the recorder's checks and look-up lead to. */
  function LookUpProgress(store: Store, ticket: Ticket, d: Decision): Progress {
    var op := RecordingOp(ticket, d);
    if Recordable(store, ticket.call, d) && op.Some? then Checked(d, op.value) else Finished(Refused)
  }

  function SpendResult(store: Store, ticket: Ticket, gateId: string, at: Time): (Store, Result<RouteResult, ()>) {
    CallResult(store, ticket.call.runId, Consume(gateId, ticket.audit), at, Allow(), Some(gateId))
  }

  /** The recorder: one decision recorded, or refused without touching the store. */
  function RecordResult(store: Store, ticket: Ticket, d: Decision, at: Time): (Store, Result<RouteResult, ()>) {
    var op := RecordingOp(ticket, d);
    if Recordable(store, ticket.call, d) && op.Some? then
      CallResult(store, ticket.call.runId, op.value, at, d, None)
    else (store, Err(()))
  }

  /** The gate search: refused, one approval spent, or no approved gate fits. */
  function ApprovedResult(store: Store, ticket: Ticket, at: Time): (Store, Result<Option<RouteResult>, ()>) {
    var c := ticket.call;
    if c.runId !in store.runs || !InScope(store.runs[c.runId], c.request) then (store, Err(()))
    else
      var gates := store.runs[c.runId].approvals;
      var i := FirstBoundGate(gates, ticket.binding);
      if i == |gates| then (store, Ok(None))
      else
        var (after, spent) := SpendResult(store, ticket, gates[i].id, at);
        (after, if spent.Err? then Err(()) else Ok(Some(spent.value)))
  }

  /** The gate search where an approval is required, and the recorder unless the search settles the matter. */
  function SearchResult(store: Store, ticket: Ticket, d: Decision, at: Time): (Store, Result<RouteResult, ()>) {
    if d.status != ApprovalRequired then RecordResult(store, ticket, d, at)
    else
      var (after, approved) := ApprovedResult(store, ticket, at);
      if approved.Err? then (after, Err(()))
      else if approved.value.Some? then (after, Ok(approved.value.value))
      else RecordResult(store, ticket, d, at)
  }

  function RoutingResult(key: Bytes, store: Store, ticket: Ticket, policy: Option<Policy>, answer: Option<Entry>,
                         at: Time)
    : (Store, Result<RouteResult, ()>)
  {
    if !Bindable(key, ticket.call) then (store, Err(()))
    else SearchResult(store, ticket, Authorize(policy, answer, ticket.call.request), at)
  }

  /** Where a route leaves its caller. */
  function ProgressOf(r: Result<RouteResult, ()>): Progress {
    match r
    case Err(_) => Finished(Refused)
    case Ok(route) => Routed(route.decision, route.run, route.gate)
  }

  /** Thread 0 has this route, the store is this one, and nothing was invoked on the way. */
  predicate Leaves(s: State, after: State, ticket: Ticket, store: Store, r: Result<RouteResult, ()>) {
    && after.store == store
    && Solo(after, ticket, ProgressOf(r))
    && forall e :: e in after.trace && e.Invoked? ==> e in s.trace
  }

  predicate LeavesWith(s: State, after: State, ticket: Ticket, result: (Store, Result<RouteResult, ()>)) {
    Leaves(s, after, ticket, result.0, result.1)
  }

  /** Thread 0 with another progress. */
  function At(s: State, ticket: Ticket, p: Progress): State {
    s.(executions := map[0 := Execution(ticket, p)])
  }

  lemma MoveAlone(s: State, ticket: Ticket, p: Progress, q: Progress)
    requires Solo(s, ticket, p)
    ensures Move(s, 0, q) == At(s, ticket, q)
  {
  }

  lemma SkippedSteps(s: State, ticket: Ticket, p: Progress, a: Action)
    requires Solo(s, ticket, p)
    requires a.Scan? || a.Spend? || a.LookUp? || a.Record? || a.Recheck? || a.Invoke?
    requires a.thread == 0
    requires a.Scan? ==> !(p.Authorized? && p.decision.status == ApprovalRequired)
    requires a.Spend? ==> !p.Matched?
    requires a.LookUp? ==> !p.Unmatched? && !(p.Authorized? && p.decision.status != ApprovalRequired)
    requires a.Record? ==> !p.Checked?
    requires a.Recheck? ==> !p.Routed?
    requires a.Invoke? ==> !p.Ready?
    ensures ToolExecution.Apply(s, a) == s
  {
  }

  lemma AuthorizeAlone(s: State, ticket: Ticket, policy: Option<Policy>, answer: Option<Entry>)
    requires Solo(s, ticket, Started)
    ensures var p := if Bindable(s.key, ticket.call) then Authorized(Authorize(policy, answer, ticket.call.request))
                     else Finished(Refused);
            ToolExecution.Apply(s, Authorizes(0, policy, answer)) == At(s, ticket, p)
  {
  }

  lemma ScanAlone(s: State, ticket: Ticket, d: Decision)
    requires Solo(s, ticket, Authorized(d)) && d.status == ApprovalRequired
    ensures ToolExecution.Apply(s, Scan(0)) == At(s, ticket, ScanProgress(s.store, ticket, d))
  {
  }

  lemma StoreCallsInvokeNothing(actor: Actor, before: Run, after: Run, op: Op)
    ensures forall e :: e in EventsOf(actor, before, after, op) ==> !e.Invoked?
  {
  }

  lemma CommitIsUpdate(s: State, actor: Actor, runId: string, op: Op, at: Time)
    ensures var (after, r) := Commit(s, actor, runId, op, at);
            && (after.store, r) == Update(s.store, runId, op, at)
            && after.executions == s.executions
            && (r.Err? ==> after == s)
            && forall e :: e in after.trace && e.Invoked? ==> e in s.trace
  {
    UpdateTouchesOneRun(s.store, runId, op, at);
    var r := Update(s.store, runId, op, at).1;
    if r.Ok? { StoreCallsInvokeNothing(actor, s.store.runs[runId], r.value, op); }
  }

  /** Thread 0 moves on from its store call: routed with the recorded run, or refused. */
  function AfterCommit(s: State, after: State, r: Result<Run, RunError>, d: Decision, gate: Option<string>): State {
    if r.Err? then Stop(s, 0) else Move(after, 0, Routed(d, r.value, gate))
  }

  lemma AfterCommitLeaves(s: State, after: State, r: Result<Run, RunError>, ticket: Ticket, p: Progress,
                          d: Decision, gate: Option<string>)
    requires Solo(s, ticket, p) && after.executions == s.executions && (r.Err? ==> after == s)
    requires forall e :: e in after.trace && e.Invoked? ==> e in s.trace
    ensures Leaves(s, AfterCommit(s, after, r, d, gate), ticket, after.store, RouteOf(r, d, gate))
  {
    MoveAlone(s, ticket, p, Finished(Refused));
    if r.Ok? { MoveAlone(after, ticket, p, Routed(d, r.value, gate)); }
  }

  lemma CommitAlone(s: State, ticket: Ticket, p: Progress, op: Op, at: Time, d: Decision, gate: Option<string>)
    requires Solo(s, ticket, p)
    ensures var (after, r) := Commit(s, Caller(0), ticket.call.runId, op, at);
            LeavesWith(s, AfterCommit(s, after, r, d, gate), ticket,
                       CallResult(s.store, ticket.call.runId, op, at, d, gate))
  {
    CommitIsUpdate(s, Caller(0), ticket.call.runId, op, at);
    var (after, r) := Commit(s, Caller(0), ticket.call.runId, op, at);
    AfterCommitLeaves(s, after, r, ticket, p, d, gate);
  }

  lemma SpendIsCommit(s: State, ticket: Ticket, g: string, at: Time)
    requires Solo(s, ticket, Matched(g))
    ensures var (after, r) := Commit(s, Caller(0), ticket.call.runId, Consume(g, ticket.audit), at);
            ToolExecution.Apply(s, Spend(0, at)) == AfterCommit(s, after, r, Allow(), Some(g))
  {
  }

  lemma SpendAlone(s: State, ticket: Ticket, g: string, at: Time)
    requires Solo(s, ticket, Matched(g))
    ensures LeavesWith(s, ToolExecution.Apply(s, Spend(0, at)), ticket, SpendResult(s.store, ticket, g, at))
  {
    SpendIsCommit(s, ticket, g, at);
    CommitAlone(s, ticket, Matched(g), Consume(g, ticket.audit), at, Allow(), Some(g));
  }

  lemma RecordIsCommit(s: State, ticket: Ticket, d: Decision, op: Op, at: Time)
    requires Solo(s, ticket, Checked(d, op))
    ensures var (after, r) := Commit(s, Caller(0), ticket.call.runId, op, at);
            ToolExecution.Apply(s, Record(0, at)) == AfterCommit(s, after, r, d, None)
  {
  }

  lemma RecordAlone(s: State, ticket: Ticket, d: Decision, op: Op, at: Time)
    requires Solo(s, ticket, Checked(d, op))
    ensures LeavesWith(s, ToolExecution.Apply(s, Record(0, at)), ticket,
                       CallResult(s.store, ticket.call.runId, op, at, d, None))
  {
    RecordIsCommit(s, ticket, d, op, at);
    CommitAlone(s, ticket, Checked(d, op), op, at, d, None);
  }

  lemma LookUpMoves(s: State, ticket: Ticket, p: Progress, d: Decision)
    requires Solo(s, ticket, p)
    ensures LookUpStep(s, 0, Execution(ticket, p), d) == Move(s, 0, LookUpProgress(s.store, ticket, d))
  {
  }

  lemma LookUpIsStep(s: State, ticket: Ticket, p: Progress, d: Decision)
    requires Solo(s, ticket, p) && (p == Unmatched(d) || (p == Authorized(d) && d.status != ApprovalRequired))
    ensures ToolExecution.Apply(s, LookUp(0)) == LookUpStep(s, 0, Execution(ticket, p), d)
  {
  }

  lemma LookUpAlone(s: State, ticket: Ticket, p: Progress, d: Decision)
    requires Solo(s, ticket, p) && (p == Unmatched(d) || (p == Authorized(d) && d.status != ApprovalRequired))
    ensures ToolExecution.Apply(s, LookUp(0)) == At(s, ticket, LookUpProgress(s.store, ticket, d))
  {
    LookUpIsStep(s, ticket, p, d);
    LookUpMoves(s, ticket, p, d);
    MoveAlone(s, ticket, p, LookUpProgress(s.store, ticket, d));
  }

  lemma RecordTail(s: State, ticket: Ticket, p: Progress, d: Decision, at: Time)
    requires Solo(s, ticket, p) && (p == Unmatched(d) || (p == Authorized(d) && d.status != ApprovalRequired))
    ensures LeavesWith(s, ToolExecution.Apply(ToolExecution.Apply(s, LookUp(0)), Record(0, at)), ticket,
                       RecordResult(s.store, ticket, d, at))
  {
    LookUpAlone(s, ticket, p, d);
    var looked, q := ToolExecution.Apply(s, LookUp(0)), LookUpProgress(s.store, ticket, d);
    if q.Checked? {
      RecordAlone(looked, ticket, d, q.op, at);
    } else {
      SkippedSteps(looked, ticket, q, Record(0, at));
    }
  }

  lemma MatchedTail(s: State, ticket: Ticket, g: string, at: Time)
    requires Solo(s, ticket, Matched(g))
    ensures var after := ToolExecution.Apply(s, Spend(0, at));
            && LeavesWith(s, after, ticket, SpendResult(s.store, ticket, g, at))
            && ToolExecution.Apply(ToolExecution.Apply(after, LookUp(0)), Record(0, at)) == after
  {
    SpendAlone(s, ticket, g, at);
    var spent := ToolExecution.Apply(s, Spend(0, at));
    SkippedSteps(spent, ticket, spent.executions[0].progress, LookUp(0));
    SkippedSteps(spent, ticket, spent.executions[0].progress, Record(0, at));
  }

  lemma SearchTail(s: State, ticket: Ticket, d: Decision, at: Time)
    requires Solo(s, ticket, Authorized(d))
    ensures LeavesWith(s, SearchSteps(s, at), ticket, SearchResult(s.store, ticket, d, at))
  {
    var scanned := ToolExecution.Apply(s, Scan(0));
    if d.status == ApprovalRequired {
      ScanAlone(s, ticket, d);
      var p := ScanProgress(s.store, ticket, d);
      if p.Matched? {
        MatchedTail(scanned, ticket, p.gateId, at);
      } else {
        SkippedSteps(scanned, ticket, p, Spend(0, at));
        if p.Unmatched? {
          RecordTail(scanned, ticket, p, d, at);
        } else {
          SkippedSteps(scanned, ticket, p, LookUp(0));
          SkippedSteps(scanned, ticket, p, Record(0, at));
        }
      }
    } else {
      SkippedSteps(s, ticket, Authorized(d), Scan(0));
      SkippedSteps(s, ticket, Authorized(d), Spend(0, at));
      RecordTail(s, ticket, Authorized(d), d, at);
    }
  }

  lemma RefusedTail(s: State, ticket: Ticket, at: Time)
    requires Solo(s, ticket, Finished(Refused))
    ensures SearchSteps(s, at) == s
  {
    SkippedSteps(s, ticket, Finished(Refused), Scan(0));
    SkippedSteps(s, ticket, Finished(Refused), Spend(0, at));
    SkippedSteps(s, ticket, Finished(Refused), LookUp(0));
    SkippedSteps(s, ticket, Finished(Refused), Record(0, at));
  }

  /** The protocol steps of routing leave the store and the route that the code computes. */
  lemma RouteStepsAre(s: State, ticket: Ticket, policy: Option<Policy>, answer: Option<Entry>, at: Time)
    requires Solo(s, ticket, Started)
    ensures LeavesWith(s, RouteSteps(s, policy, answer, at), ticket,
                       RoutingResult(s.key, s.store, ticket, policy, answer, at))
  {
    AuthorizeAlone(s, ticket, policy, answer);
    var s1 := ToolExecution.Apply(s, Authorizes(0, policy, answer));
    if Bindable(s.key, ticket.call) {
      SearchTail(s1, ticket, Authorize(policy, answer, ticket.call.request), at);
    } else {
      RefusedTail(s1, ticket, at);
    }
  }

  predicate AllowedRoute(s: State) {
    0 in s.executions && s.executions[0].progress.Routed? && s.executions[0].progress.decision.status == Allowed
  }

  /** The invocation and the return, unless the context ends before one of them. */
  function LastSteps(s: State, live: nat, toolOk: bool): State {
    ToolExecution.Apply(ToolExecution.Apply(s, if live == 2 then Abandon(0) else Invoke(0)),
                        if toolOk && live >= 4 then Return(0) else Abandon(0))
  }

  /**
   The last three steps of execution. An ended context cuts them short before the re-check or before the invocation.
   */
  function FinalSteps(s: State, live: nat, toolOk: bool): State {
    LastSteps(ToolExecution.Apply(s, if live == 1 && AllowedRoute(s) then Abandon(0) else Recheck(0)), live, toolOk)
  }

  lemma LastStepsOfFinished(s: State, ticket: Ticket, outcome: Outcome, live: nat, toolOk: bool)
    requires Solo(s, ticket, Finished(outcome))
    ensures LastSteps(s, live, toolOk) == s
  {
    FinishedStays(s, ticket, outcome, if live == 2 then Abandon(0) else Invoke(0));
    FinishedStays(s, ticket, outcome, if toolOk && live >= 4 then Return(0) else Abandon(0));
  }

  lemma FinalStepsOfFinished(s: State, ticket: Ticket, outcome: Outcome, live: nat, toolOk: bool)
    requires Solo(s, ticket, Finished(outcome))
    ensures FinalSteps(s, live, toolOk) == s
  {
    FinishedStays(s, ticket, outcome, Recheck(0));
    LastStepsOfFinished(s, ticket, outcome, live, toolOk);
  }

  /** Whether a recorded route may be invoked on the run as it is now. */
  predicate Invocable(store: Store, c: Call, d: Decision, run: Run) {
    && RouteValid(d, run, c) && d.status == Allowed
    && c.runId in store.runs && RouteValid(d, store.runs[c.runId], c)
  }

  function RouteOutcome(c: Call, d: Decision, run: Run): Outcome {
    if RouteValid(d, run, c) && d.status != Allowed then Recorded(d) else Refused
  }

  lemma RecheckAlone(s: State, ticket: Ticket, d: Decision, run: Run, gate: Option<string>)
    requires Solo(s, ticket, Routed(d, run, gate)) && (d.status == Allowed ==> run.logs != [])
    ensures var after := ToolExecution.Apply(s, Recheck(0));
            if Invocable(s.store, ticket.call, d, run) then
              var seen := s.store.runs[ticket.call.runId];
              after == s.(executions := map[0 := Execution(ticket, Ready(gate, LastLog(run), seen))],
                          trace := s.trace + [Rechecked(0, seen)])
            else after == s.(executions := map[0 := Execution(ticket, Finished(RouteOutcome(ticket.call, d, run)))])
  {
  }

  lemma InvokeAlone(s: State, ticket: Ticket, gate: Option<string>, entry: LogEntry, seen: Run, returns': bool)
    requires Solo(s, ticket, Ready(gate, entry, seen))
    ensures var invoked := ToolExecution.Apply(s, Invoke(0));
            var after := ToolExecution.Apply(invoked, if returns' then Return(0) else Abandon(0));
            && after.store == s.store && after.trace == s.trace + [Invoked(0, ticket, gate, entry, seen)]
            && Solo(after, ticket, Finished(if returns' then Executed else Refused))
  {
  }

  lemma AbandonAlone(s: State, ticket: Ticket, p: Progress)
    requires Solo(s, ticket, p) && !p.Finished?
    ensures ToolExecution.Apply(s, Abandon(0)) == s.(executions := map[0 := Execution(ticket, Finished(Refused))])
  {
  }

  /** What the last steps lead to: an invocation exactly on an invocable route and a context open until then. */
  function FinalOutcome(store: Store, c: Call, d: Decision, run: Run, live: nat, toolOk: bool): Outcome {
    if Invocable(store, c, d, run) && live >= 3 then (if toolOk && live >= 4 then Executed else Refused)
    else RouteOutcome(c, d, run)
  }

  lemma CutShortBeforeTheTool(s: State, ticket: Ticket, p: Progress, toolOk: bool)
    requires Solo(s, ticket, p) && !p.Finished?
    ensures LastSteps(s, 2, toolOk) == At(s, ticket, Finished(Refused))
  {
    AbandonAlone(s, ticket, p);
    FinishedStays(At(s, ticket, Finished(Refused)), ticket, Refused, Abandon(0));
  }

  /** The last steps when they end without an invocation. */
  lemma FinalStepsCutShort(s: State, ticket: Ticket, d: Decision, run: Run, gate: Option<string>, live: nat,
                           toolOk: bool)
    requires Solo(s, ticket, Routed(d, run, gate)) && (d.status == Allowed ==> run.logs != [])
    requires live >= 1 && !(Invocable(s.store, ticket.call, d, run) && live >= 3)
    requires forall e :: e in s.trace ==> !e.Invoked?
    ensures var after := FinalSteps(s, live, toolOk);
            && after.store == s.store && (forall e :: e in after.trace ==> !e.Invoked?)
            && Solo(after, ticket, Finished(RouteOutcome(ticket.call, d, run)))
  {
    var outcome := RouteOutcome(ticket.call, d, run);
    RecheckAlone(s, ticket, d, run, gate);
    AbandonAlone(s, ticket, Routed(d, run, gate));
    var s1 := ToolExecution.Apply(s, if live == 1 && AllowedRoute(s) then Abandon(0) else Recheck(0));
    if Invocable(s.store, ticket.call, d, run) && live == 2 {
      CutShortBeforeTheTool(s1, ticket, Ready(gate, LastLog(run), s.store.runs[ticket.call.runId]), toolOk);
    } else {
      LastStepsOfFinished(s1, ticket, outcome, live, toolOk);
    }
  }

  lemma FinalStepsOfRouted(s: State, ticket: Ticket, d: Decision, run: Run, gate: Option<string>, live: nat,
                           toolOk: bool)
    requires Solo(s, ticket, Routed(d, run, gate)) && (d.status == Allowed ==> run.logs != [])
    requires live >= 1 && forall e :: e in s.trace ==> !e.Invoked?
    ensures var after := FinalSteps(s, live, toolOk);
            && after.store == s.store
            && ((exists e :: e in after.trace && e.Invoked?) <==> Invocable(s.store, ticket.call, d, run) && live >= 3)
            && Solo(after, ticket, Finished(FinalOutcome(s.store, ticket.call, d, run, live, toolOk)))
  {
    if Invocable(s.store, ticket.call, d, run) && live >= 3 {
      RecheckAlone(s, ticket, d, run, gate);
      var s1 := ToolExecution.Apply(s, Recheck(0));
      InvokeAlone(s1, ticket, gate, LastLog(run), s.store.runs[ticket.call.runId], toolOk && live >= 4);
      var after := FinalSteps(s, live, toolOk);
      assert after.trace[|after.trace| - 1] in after.trace;
    } else {
      FinalStepsCutShort(s, ticket, d, run, gate, live, toolOk);
    }
  }

  lemma FinishedStays(s: State, ticket: Ticket, outcome: Outcome, a: Action)
    requires Solo(s, ticket, Finished(outcome))
             && (a == Recheck(0) || a == Invoke(0) || a == Return(0) || a == Abandon(0))
    ensures ToolExecution.Apply(s, a) == s
  {
  }

  lemma AllowedRoutesHaveLogs(store: Store, id: string, op: Op, at: Time)
    requires op.AddLog? || op.Consume?
    ensures Update(store, id, op, at).1.Ok? ==> Update(store, id, op, at).1.value.logs != []
  {
  }

  class ToolExecutor {
    const key: Bytes
    const store: RunStore

    constructor (key: Bytes, store: RunStore)
      ensures this.key == key && this.store == store
    {
      this.key, this.store := key, store;
    }

    /** Spend the approval of one gate, as the run store does it. */
    method SpendApproval(c: Call, gateId: string, at: Time) returns (r: Result<RouteResult, ()>)
      modifies store
      ensures (store.State(), r) == SpendResult(old(store.State()), TicketFor(key, c), gateId, at)
      ensures r.Ok? ==> r.value.run.logs != []
    {
      var message := RouteMessage("Allowed", c.request);
      AllowedRoutesHaveLogs(store.State(), c.runId, Consume(gateId, message), at);
      var recorded := store.ConsumeApprovalBinding(c.runId, gateId, message, at);
      if recorded.Err? { return Err(()); }
      return Ok(RouteResult(Allow(), recorded.value, Some(gateId)));
    }

    /** The first approved gate that is bound to exactly this operation. */
    method FindApprovedGate(gates: seq<Gate>, c: Call) returns (i: nat)
      requires Bindable(key, c)
      ensures i == FirstBoundGate(gates, BindingFor(key, c))
    {
      i := 0;
      while i < |gates|
        invariant i <= FirstBoundGate(gates, BindingFor(key, c))
      {
        var matches := ApprovalBinding.Matches(gates[i].binding, key, c);
        if gates[i].status == Approved && matches { return; }
        i := i + 1;
      }
    }

    /** The search for an approved gate bound to exactly this operation, and its spending. */
    method RecordApprovedToolCall(c: Call, at: Time) returns (r: Result<Option<RouteResult>, ()>)
      modifies store
      ensures if Bindable(key, c) then (store.State(), r) == ApprovedResult(old(store.State()), TicketFor(key, c), at)
              else store.State() == old(store.State()) && r.Err?
      ensures r == Ok(None) ==> store.State() == old(store.State())
      ensures r.Ok? && r.value.Some? ==> r.value.value.run.logs != []
    {
      var expected := NewToolApprovalBinding(key, c);
      if expected.None? { return Err(()); }
      var found := store.Get(c.runId);
      if found.None? || !InScope(found.value, c.request) { return Err(()); }
      var i := FindApprovedGate(found.value.approvals, c);
      if i == |found.value.approvals| { return Ok(None); }
      var spent := SpendApproval(c, found.value.approvals[i].id, at);
      if spent.Err? { return Err(()); }
      return Ok(Some(spent.value));
    }

    /** The one store call that records a decision, if there is one. */
    method StoreDecision(c: Call, d: Decision, at: Time) returns (r: Result<RouteResult, ()>)
      requires Recordable(store.State(), c, d)
      modifies store
      ensures (store.State(), r) == RecordResult(old(store.State()), TicketFor(key, c), d, at)
      ensures r.Ok? ==> r.value.decision == d && (d.status == Allowed ==> r.value.run.logs != [])
    {
      ghost var ticket := TicketFor(key, c);
      var recorded;
      match d.status {
        case Denied =>
          assert RecordingOp(ticket, d) == Some(Fail(DenialMessage(c.request, d.reason)));
          recorded := store.Fail(c.runId, DenialMessage(c.request, d.reason), at);
        case ApprovalRequired =>
          var kind := KindFor(c.request.risk);
          if kind.None? { return Err(()); }
          recorded := store.AddApproval(c.runId, kind.value, RouteMessage("Authorize", c.request),
                                        BindingFor(key, c), at);
        case Allowed =>
          assert RecordingOp(ticket, d) == Some(AddLog(LogAudit, RouteMessage("Allowed", c.request), true));
          AllowedRoutesHaveLogs(store.State(), c.runId, AddLog(LogAudit, RouteMessage("Allowed", c.request), true), at);
          recorded := store.AddLog(c.runId, LogAudit, RouteMessage("Allowed", c.request), true, at);
        case OtherVerdict(_) => return Err(());
      }
      if recorded.Err? { return Err(()); }
      return Ok(RouteResult(d, recorded.value, None));
    }

    /** The recorder: check the decision, look at the run, then apply exactly one mutation. */
    method RecordDecision(c: Call, d: Decision, at: Time) returns (r: Result<RouteResult, ()>)
      modifies store
      ensures (store.State(), r) == RecordResult(old(store.State()), TicketFor(key, c), d, at)
      ensures r.Ok? ==> r.value.decision == d && (d.status == Allowed ==> r.value.run.logs != [])
    {
      if RecordCheck(c.runId, c.request, d).Some? { return Err(()); }
      var found := store.Get(c.runId);
      if found.None? || !InScope(found.value, c.request) { return Err(()); }
      assert Recordable(store.State(), c, d);
      r := StoreDecision(c, d, at);
    }

    /** Spend an approval, ask for one, or record the decision. */
    method RouteDecision(c: Call, decision: Decision, at: Time) returns (r: Result<RouteResult, ()>)
      requires Bindable(key, c)
      modifies store
      ensures (store.State(), r) == SearchResult(old(store.State()), TicketFor(key, c), decision, at)
      ensures r.Ok? && r.value.decision.status == Allowed ==> r.value.run.logs != []
    {
      if decision.status == ApprovalRequired {
        var spent := RecordApprovedToolCall(c, at);
        if spent.Err? { return Err(()); }
        if spent.value.Some? { return Ok(spent.value.value); }
      }
      r := RecordDecision(c, decision, at);
    }

    /** The router: authorize, then route the decision. */
    method RouteToolCall(c: Call, policy: Option<Policy>, answer: Option<Entry>, at: Time)
      returns (r: Result<RouteResult, ()>)
      modifies store
      ensures (store.State(), r) == RoutingResult(key, old(store.State()), TicketFor(key, c), policy, answer, at)
      ensures r.Ok? && r.value.decision.status == Allowed ==> r.value.run.logs != []
    {
      if !Bindable(key, c) { return Err(()); }
      r := RouteDecision(c, Authorize(policy, answer, c.request), at);
    }

    /**
     What follows the routing: the two checks of the recorded route, and the call of the tool between the last looks.
     */
    method ExecuteRoute(c: Call, route: RouteResult, live: nat, toolOk: bool) returns (invoked: bool, outcome: Outcome)
      requires live >= 1
      ensures invoked <==> Invocable(store.State(), c, route.decision, route.run) && live >= 3
      ensures outcome == FinalOutcome(store.State(), c, route.decision, route.run, live, toolOk)
    {
      if !RouteValid(route.decision, route.run, c) { return false, Refused; }
      if route.decision.status != Allowed { return false, Recorded(route.decision); }
      if live == 1 { return false, Refused; }
      var current := store.Get(c.runId);
      if current.None? { return false, Refused; }
      if !RouteValid(route.decision, current.value, c) { return false, Refused; }
      if live == 2 { return false, Refused; }
      if live == 3 { return true, Refused; }
      return true, if toolOk then Executed else Refused;
    }

    /**
     Execute, with what the environment decides given: how many looks at the context find it open, and whether the tool
     answers with a valid result. `invoked` tells whether the external tool was called.
     */
    method Execute(c: Call, policy: Option<Policy>, answer: Option<Entry>, at: Time, live: nat, toolOk: bool)
      returns (invoked: bool, outcome: Outcome)
      modifies store
      ensures var s := ExecuteSteps(Alone(key, old(store.State()), c), policy, answer, at, live, toolOk);
              && store.State() == s.store
              && 0 in s.executions && s.executions[0].progress == Finished(outcome)
              && (invoked <==> exists e :: e in s.trace && e.Invoked?)
    {
      if live == 0 {
        AbandonAlone(Alone(key, store.State(), c), TicketFor(key, c), Started);
        return false, Refused;
      }
      RouteStepsAre(Alone(key, store.State(), c), TicketFor(key, c), policy, answer, at);
      ghost var s := RouteSteps(Alone(key, store.State(), c), policy, answer, at);
      var routed := RouteToolCall(c, policy, answer, at);
      if routed.Err? {
        FinalStepsOfFinished(s, TicketFor(key, c), Refused, live, toolOk);
        return false, Refused;
      }
      var route := routed.value;
      FinalStepsOfRouted(s, TicketFor(key, c), route.decision, route.run, route.gate, live, toolOk);
      invoked, outcome := ExecuteRoute(c, route, live, toolOk);
    }
  }
}
