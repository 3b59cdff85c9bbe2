/**
 Safety of approval-gated execution over every interleaving: an invocation that needed approval maps to an approval
 gate of its own, created for, approved for and spent on exactly that operation.
 */
module ToolExecutionSafety {
  import opened Wrappers
  import opened Traces
  import opened Utf8
  import opened Framing
  import opened AgentRuns
  import opened Routing
  import opened ApprovalBinding
  import opened ToolExecution

  // ---- What each event owes to the events before it ----

  ghost predicate GateIsNew(prefix: seq<Event>, runId: string, gateId: string) {
    forall p :: p in prefix && p.GateCreated? ==> !(p.runId == runId && p.gateId == gateId)
  }

  ghost predicate NotYetApproved(prefix: seq<Event>, runId: string, gateId: string) {
    forall p :: p in prefix && p.GateApproved? ==> !(p.runId == runId && p.gateId == gateId)
  }

  ghost predicate NotYetConsumed(prefix: seq<Event>, runId: string, gateId: string) {
    forall p :: p in prefix && p.GateConsumed? ==> !(p.runId == runId && p.gateId == gateId)
  }

  ghost predicate NotYetInvoked(prefix: seq<Event>, t: nat) {
    forall p :: p in prefix && p.Invoked? ==> p.thread != t
  }

  /** The audit entry an allowed route writes. */
  predicate AuditEntryFor(entry: LogEntry, audit: string) {
    entry.level == LogAudit && entry.message == TruncateText(audit, MAX_LOG_MESSAGE)
  }

  /** An allowed route of thread `t` has its audit entry, and its spent gate unless the risk is read-only. */
  predicate Justified(trace: seq<Event>, t: nat, ticket: Ticket, gate: Option<string>, entry: LogEntry) {
    && Audited(Caller(t), ticket.call.runId, entry) in trace
    && AuditEntryFor(entry, ticket.audit)
    && match gate
       case Some(g) => GateConsumed(Caller(t), ticket.call.runId, g, ticket.binding) in trace
       case None => ticket.call.request.risk == RiskReadOnly
  }

  ghost predicate EventOk(prefix: seq<Event>, e: Event) {
    match e
    case RunCreated(r) => forall p :: p in prefix && p.RunCreated? ==> p.runId != r
    case GateCreated(r, g, _) => GateIsNew(prefix, r, g)
    case GateApproved(r, g, b) => GateCreated(r, g, b) in prefix && NotYetApproved(prefix, r, g)
    case GateConsumed(_, r, g, b) => b != UNBOUND && GateApproved(r, g, b) in prefix && NotYetConsumed(prefix, r, g)
    case Audited(_, _, _) => true
    case RunEnded(_) => true
    case Rechecked(_, run) => ActiveRun(run) && RunEnded(run.id) !in prefix
    case Invoked(t, ticket, gate, entry, seen) =>
      && NotYetInvoked(prefix, t)
      && Justified(prefix, t, ticket, gate, entry)
      && Rechecked(t, seen) in prefix && seen.id == ticket.call.runId && InScope(seen, ticket.call.request)
  }

  ghost predicate TraceOk(trace: seq<Event>) {
    Lawful(EventOk, trace)
  }

  // ---- The store agrees with the trace ----

  ghost predicate IssuedBy(runId: string, latest: nat) {
    forall m :: m > latest ==> runId != RunId(m)
  }

  /** The stored gate with this id, if its run is still stored, satisfies `expected` of status and binding. */
  ghost predicate StoredGate(store: Store, runId: string, gateId: string, decided: bool, cleared: bool) {
    runId in store.runs ==>
      var gates := store.runs[runId].approvals;
      var i := FindGate(gates, gateId);
      i < |gates| && (decided ==> gates[i].status == Approved) && (cleared ==> gates[i].binding == UNBOUND)
  }

  ghost predicate EventAgrees(store: Store, e: Event) {
    match e
    case RunCreated(r) => IssuedBy(r, store.next)
    case GateCreated(r, g, _) => IssuedBy(r, store.next) && StoredGate(store, r, g, false, false)
    case GateApproved(r, g, _) => IssuedBy(r, store.next) && StoredGate(store, r, g, true, false)
    case GateConsumed(_, r, g, _) => IssuedBy(r, store.next) && StoredGate(store, r, g, true, true)
    case RunEnded(r) => IssuedBy(r, store.next) && (r in store.runs ==> Terminal(store.runs[r].status))
    case _ => true
  }

  predicate GateAgrees(runId: string, g: Gate, trace: seq<Event>) {
    && (g.status == Pending || g.binding != UNBOUND ==> GateCreated(runId, g.id, g.binding) in trace)
    && (g.status == Approved && g.binding != UNBOUND ==> GateApproved(runId, g.id, g.binding) in trace)
  }

  predicate RunAgrees(run: Run, trace: seq<Event>) {
    forall i :: 0 <= i < |run.approvals| ==> GateAgrees(run.id, run.approvals[i], trace)
  }

  ghost predicate EventsAgree(store: Store, trace: seq<Event>) {
    forall e :: e in trace ==> EventAgrees(store, e)
  }

  ghost predicate RunsAgree(store: Store, trace: seq<Event>) {
    forall id :: id in store.runs ==> RunAgrees(store.runs[id], trace)
  }

  /** The part of the invariant that is about runs, gates and the trace. */
  ghost predicate Core(s: State) {
    StoreOk(s.store) && TraceOk(s.trace) && EventsAgree(s.store, s.trace) && RunsAgree(s.store, s.trace)
  }

  lemma FindGateStable(before: seq<Gate>, after: seq<Gate>, id: string)
    requires |before| <= |after| && forall i :: 0 <= i < |before| ==> after[i].id == before[i].id
    requires FindGate(before, id) < |before|
    ensures FindGate(after, id) == FindGate(before, id)
  {
  }

  /** An evolved run contradicts no earlier event. */
  lemma EventSurvives(store: Store, id: string, run: Run, e: Event)
    requires id in store.runs && Evolves(store.runs[id], run) && EventAgrees(store, e)
    ensures EventAgrees(store.(runs := store.runs[id := run]), e)
  {
    var before := store.runs[id];
    if (e.GateCreated? || e.GateApproved? || e.GateConsumed?) && e.runId == id {
      var i := FindGate(before.approvals, e.gateId);
      FindGateStable(before.approvals, run.approvals, e.gateId);
      assert GateEvolves(before.approvals[i], run.approvals[i]);
    }
  }

  lemma EventsSurvive(store: Store, id: string, run: Run, trace: seq<Event>)
    requires id in store.runs && Evolves(store.runs[id], run) && EventsAgree(store, trace)
    ensures EventsAgree(store.(runs := store.runs[id := run]), trace)
  {
    forall e | e in trace ensures EventAgrees(store.(runs := store.runs[id := run]), e) {
      EventSurvives(store, id, run, e);
    }
  }

  lemma RunsSurvive(store: Store, id: string, run: Run, trace: seq<Event>, events: seq<Event>)
    requires id in store.runs && RunsAgree(store, trace) && RunAgrees(run, trace + events)
    ensures RunsAgree(store.(runs := store.runs[id := run]), trace + events)
  {
    forall other | other in store.runs && other != id ensures RunAgrees(store.runs[other], trace + events) {
      assert RunAgrees(store.runs[other], trace);
    }
  }

  // ---- Store calls ----

  /** A gate known to the observer as created, approved or spent is not one the store still offers. */
  lemma GateHistory(s: State, id: string, i: nat)
    requires Core(s) && id in s.store.runs && i < |s.store.runs[id].approvals|
    ensures var g := s.store.runs[id].approvals[i];
            && FindGate(s.store.runs[id].approvals, g.id) == i
            && (g.status == Pending ==>
                  GateCreated(id, g.id, g.binding) in s.trace && NotYetApproved(s.trace, id, g.id))
            && (g.status == Approved && g.binding != UNBOUND ==>
                  GateApproved(id, g.id, g.binding) in s.trace && NotYetConsumed(s.trace, id, g.id))
  {
    var run := s.store.runs[id];
    var g := run.approvals[i];
    assert RunOk(run) && run.id == id;
    var j := FindGate(run.approvals, g.id);
    if j != i { GateIdInjective(j, i); }
    assert GateAgrees(id, g, s.trace);
    forall p | p in s.trace && (p.GateApproved? || p.GateConsumed?) && p.runId == id && p.gateId == g.id
      ensures g.status == Approved && (p.GateConsumed? ==> g.binding == UNBOUND)
    {
      assert EventAgrees(s.store, p);
    }
  }

  lemma NextGateIsNew(s: State, id: string)
    requires Core(s) && id in s.store.runs
    ensures GateIsNew(s.trace, id, GateId(|s.store.runs[id].approvals|))
  {
    var run := s.store.runs[id];
    assert RunOk(run);
    forall p | p in s.trace && p.GateCreated? && p.runId == id
      ensures p.gateId != GateId(|run.approvals|)
    {
      assert EventAgrees(s.store, p);
      var i := FindGate(run.approvals, p.gateId);
      if p.gateId == GateId(|run.approvals|) { GateIdInjective(i, |run.approvals|); }
    }
  }

  lemma StoredIdIssued(s: State, id: string)
    requires Core(s) && id in s.store.runs
    ensures IssuedBy(id, s.store.next) && s.store.runs[id].id == id
  {
    assert id in s.store.order;
    var i :| 0 <= i < |s.store.order| && s.store.order[i] == id;
    forall m: nat | m > s.store.next ensures id != RunId(m) {
      ConsecutiveDistinct(s.store.order, s.store.next, i, m);
    }
  }

  /** The events of one store call, one at a time: at most one about a gate, an audit entry, the end of the run. */
  lemma {:induction false} TraceExtends(trace: seq<Event>, events: seq<Event>)
    requires TraceOk(trace)
    requires forall k :: 0 <= k < |events| ==> EventOk(trace + events[..k], events[k])
    ensures TraceOk(trace + events)
  {
    if events == [] {
      assert trace + events == trace;
    } else {
      var front, last := events[..|events| - 1], events[|events| - 1];
      forall k | 0 <= k < |front| ensures EventOk(trace + front[..k], front[k]) {
        assert front[..k] == events[..k];
      }
      TraceExtends(trace, front);
      Extend(EventOk, trace + front, last);
      assert trace + events == trace + front + [last];
    }
  }

  /** What the events of a store call owe: each fits the trace before it and the store after it. */
  ghost predicate EventsFit(s: State, store: Store, events: seq<Event>) {
    && (forall k :: 0 <= k < |events| ==> EventOk(s.trace + events[..k], events[k]))
    && (forall k :: 0 <= k < |events| ==> EventAgrees(store, events[k]))
  }

  lemma OneEventFits(s: State, store: Store, e: Event)
    requires EventOk(s.trace, e) && EventAgrees(store, e)
    ensures EventsFit(s, store, [e])
  {
    assert s.trace + [e][..0] == s.trace;
  }

  lemma TwoEventsFit(s: State, store: Store, e: Event, f: Event)
    requires EventOk(s.trace, e) && EventAgrees(store, e) && EventOk(s.trace + [e], f) && EventAgrees(store, f)
    ensures EventsFit(s, store, [e, f])
  {
    assert [e, f][..0] == [] && [e, f][..1] == [e];
    assert s.trace + [] == s.trace;
  }

  lemma GateAddedAgrees(run: Run, after: Run, gate: Gate, trace: seq<Event>)
    requires RunAgrees(run, trace) && after.id == run.id && after.approvals == run.approvals + [gate]
    requires gate.status == Pending
    ensures RunAgrees(after, trace + [GateCreated(run.id, gate.id, gate.binding)])
  {
    var e := GateCreated(run.id, gate.id, gate.binding);
    assert e in trace + [e];
    forall i | 0 <= i < |run.approvals| ensures GateAgrees(run.id, run.approvals[i], trace + [e]) {
      assert GateAgrees(run.id, run.approvals[i], trace);
    }
  }

  lemma AddApprovalFits(s: State, actor: Actor, id: string, kind: ApprovalKind, summary: string,
                        binding: Fingerprint, at: Time)
    requires Core(s) && id in s.store.runs && !Terminal(s.store.runs[id].status)
    ensures var run := s.store.runs[id];
            var after := AddApprovalRun(run, kind, summary, binding, at).(updatedAt := at);
            var events := EventsOf(actor, run, after, AddApproval(kind, summary, binding));
            EventsFit(s, s.store.(runs := s.store.runs[id := after]), events) && RunAgrees(after, s.trace + events)
  {
    var run := s.store.runs[id];
    var after := AddApprovalRun(run, kind, summary, binding, at).(updatedAt := at);
    StoredIdIssued(s, id);
    NextGateIsNew(s, id);
    var gate := after.approvals[|run.approvals|];
    GateAddedAgrees(run, after, gate, s.trace);
    assert EventsOf(actor, run, after, AddApproval(kind, summary, binding)) == [GateCreated(id, gate.id, binding)];
    assert FindGate(after.approvals, gate.id) < |after.approvals|;
    OneEventFits(s, s.store.(runs := s.store.runs[id := after]), GateCreated(id, gate.id, binding));
  }

  /** The gates of a settled decision: only the decided one differs. */
  lemma SettledGates(run: Run, i: nat, decision: ApprovalStatus, decidedBy: string, at: Time)
    requires i < |run.approvals| && run.status != Completed && run.status != Canceled && run.status != Failed
    ensures var after := Settle(MarkGate(run, i, decision, decidedBy, at), decision, at);
            && after.id == run.id
            && |after.approvals| == |run.approvals|
            && (forall j :: 0 <= j < |run.approvals| && j != i ==> after.approvals[j] == run.approvals[j])
            && after.approvals[i].id == run.approvals[i].id && after.approvals[i].binding == run.approvals[i].binding
            && after.approvals[i].status == decision
            && (Terminal(after.status) <==> decision == Rejected)
  {
  }

  /** The event of a decision. */
  function DecisionEvent(id: string, gate: Gate, decision: ApprovalStatus): Event {
    if decision == Approved then GateApproved(id, gate.id, gate.binding) else RunEnded(id)
  }

  lemma GateDecidedAgrees(run: Run, i: nat, after: Run, decision: ApprovalStatus, trace: seq<Event>)
    requires RunAgrees(run, trace) && after.id == run.id && |after.approvals| == |run.approvals|
    requires i < |run.approvals| && run.approvals[i].status == Pending && decision != Pending
    requires forall j :: 0 <= j < |run.approvals| && j != i ==> after.approvals[j] == run.approvals[j]
    requires after.approvals[i].id == run.approvals[i].id && after.approvals[i].binding == run.approvals[i].binding
    requires after.approvals[i].status == decision
    ensures RunAgrees(after, trace + [DecisionEvent(run.id, run.approvals[i], decision)])
  {
    var e := DecisionEvent(run.id, run.approvals[i], decision);
    assert e in trace + [e];
    forall j | 0 <= j < |run.approvals| ensures GateAgrees(run.id, after.approvals[j], trace + [e]) {
      assert GateAgrees(run.id, run.approvals[j], trace);
    }
  }

  lemma DecideEvents(actor: Actor, run: Run, i: nat, after: Run, decision: ApprovalStatus, decidedBy: string)
    requires i < |run.approvals| && FindGate(run.approvals, run.approvals[i].id) == i && after.id == run.id
    requires decision == Approved || decision == Rejected
    requires Terminal(after.status) <==> decision == Rejected
    ensures EventsOf(actor, run, after, Decide(run.approvals[i].id, decision, decidedBy))
         == [DecisionEvent(run.id, run.approvals[i], decision)]
  {
  }

  lemma DecideFits(s: State, actor: Actor, id: string, i: nat, decision: ApprovalStatus, decidedBy: string, at: Time)
    requires Core(s) && id in s.store.runs && !Terminal(s.store.runs[id].status)
    requires i < |s.store.runs[id].approvals| && s.store.runs[id].approvals[i].status == Pending
    requires decision == Approved || decision == Rejected
    ensures var run := s.store.runs[id];
            var after := Settle(MarkGate(run, i, decision, decidedBy, at), decision, at).(updatedAt := at);
            var events := EventsOf(actor, run, after, Decide(run.approvals[i].id, decision, decidedBy));
            EventsFit(s, s.store.(runs := s.store.runs[id := after]), events) && RunAgrees(after, s.trace + events)
  {
    var run := s.store.runs[id];
    var settled := Settle(MarkGate(run, i, decision, decidedBy, at), decision, at);
    var after := settled.(updatedAt := at);
    SettledGates(run, i, decision, decidedBy, at);
    StoredIdIssued(s, id);
    GateHistory(s, id, i);
    GateDecidedAgrees(run, i, after, decision, s.trace);
    DecideEventFits(s, id, i, after, decision);
    DecideEvents(actor, run, i, after, decision, decidedBy);
  }

  lemma DecideEventFits(s: State, id: string, i: nat, after: Run, decision: ApprovalStatus)
    requires Core(s) && id in s.store.runs && i < |s.store.runs[id].approvals|
    requires s.store.runs[id].approvals[i].status == Pending
    requires |after.approvals| == |s.store.runs[id].approvals|
    requires forall j :: 0 <= j < |after.approvals| ==> after.approvals[j].id == s.store.runs[id].approvals[j].id
    requires after.approvals[i].status == decision
    requires decision == Approved || (decision == Rejected && Terminal(after.status))
    ensures EventsFit(s, s.store.(runs := s.store.runs[id := after]),
                      [DecisionEvent(id, s.store.runs[id].approvals[i], decision)])
  {
    var run := s.store.runs[id];
    StoredIdIssued(s, id);
    GateHistory(s, id, i);
    FindGateStable(run.approvals, after.approvals, run.approvals[i].id);
    OneEventFits(s, s.store.(runs := s.store.runs[id := after]), DecisionEvent(id, run.approvals[i], decision));
  }

  lemma ConsumeFits(s: State, actor: Actor, id: string, i: nat, message: string, at: Time)
    requires Core(s) && id in s.store.runs && !Terminal(s.store.runs[id].status)
    requires i < |s.store.runs[id].approvals|
    requires s.store.runs[id].approvals[i].status == Approved && s.store.runs[id].approvals[i].binding != UNBOUND
    ensures var run := s.store.runs[id];
            var after := ConsumeAt(run, i, message, at).(updatedAt := at);
            var events := EventsOf(actor, run, after, Consume(run.approvals[i].id, message));
            && EventsFit(s, s.store.(runs := s.store.runs[id := after]), events) && RunAgrees(after, s.trace + events)
            && events == [GateConsumed(actor, id, run.approvals[i].id, run.approvals[i].binding),
                          Audited(actor, id, LastLog(after))]
  {
    var run := s.store.runs[id];
    var after := ConsumeAt(run, i, message, at).(updatedAt := at);
    StoredIdIssued(s, id);
    GateHistory(s, id, i);
    var e := GateConsumed(actor, id, run.approvals[i].id, run.approvals[i].binding);
    var events := EventsOf(actor, run, after, Consume(run.approvals[i].id, message));
    assert events == [e, Audited(actor, id, LastLog(after))];
    ConsumeEventsFit(s, actor, id, i, after, events);
    assert RunAgrees(run, s.trace);
  }

  lemma ConsumeEventsFit(s: State, actor: Actor, id: string, i: nat, after: Run, events: seq<Event>)
    requires Core(s) && id in s.store.runs && i < |s.store.runs[id].approvals|
    requires s.store.runs[id].approvals[i].status == Approved && s.store.runs[id].approvals[i].binding != UNBOUND
    requires |after.approvals| == |s.store.runs[id].approvals|
    requires forall j :: 0 <= j < |after.approvals| ==> after.approvals[j].id == s.store.runs[id].approvals[j].id
    requires after.approvals[i].status == Approved && after.approvals[i].binding == UNBOUND && after.logs != []
    requires events == [GateConsumed(actor, id, s.store.runs[id].approvals[i].id,
                                     s.store.runs[id].approvals[i].binding),
                        Audited(actor, id, LastLog(after))]
    ensures EventsFit(s, s.store.(runs := s.store.runs[id := after]), events)
  {
    var run := s.store.runs[id];
    StoredIdIssued(s, id);
    GateHistory(s, id, i);
    FindGateStable(run.approvals, after.approvals, run.approvals[i].id);
    var store := s.store.(runs := s.store.runs[id := after]);
    assert EventOk(s.trace, events[0]) && EventAgrees(store, events[0]);
    TwoEventsFit(s, store, events[0], events[1]);
  }

  /** The calls that leave the gates alone. */
  predicate Quiet(op: Op) {
    op.SetStatus? || op.Cancel? || op.Fail? || op.AddLog? || op.AddPatch?
  }

  lemma QuietLeavesGates(run: Run, op: Op, at: Time)
    requires Quiet(op) && Mutate(run, op, at).Ok?
    ensures Mutate(run, op, at).value.approvals == run.approvals && Mutate(run, op, at).value.id == run.id
  {
  }

  lemma SameGatesAgree(run: Run, after: Run, trace: seq<Event>, events: seq<Event>)
    requires RunAgrees(run, trace) && after.approvals == run.approvals && after.id == run.id
    ensures RunAgrees(after, trace + events)
  {
    forall i | 0 <= i < |run.approvals| ensures GateAgrees(run.id, run.approvals[i], trace + events) {
      assert GateAgrees(run.id, run.approvals[i], trace);
    }
  }

  lemma QuietEvents(actor: Actor, run: Run, after: Run, op: Op)
    requires Quiet(op)
    ensures forall e :: e in EventsOf(actor, run, after, op) ==>
              e.Audited? || (e == RunEnded(after.id) && Terminal(after.status))
  {
  }

  lemma QuietEventsFit(s: State, store: Store, id: string, events: seq<Event>)
    requires id in store.runs && IssuedBy(id, store.next)
    requires forall e :: e in events ==> e.Audited? || (e == RunEnded(id) && Terminal(store.runs[id].status))
    ensures EventsFit(s, store, events)
  {
    forall k | 0 <= k < |events| ensures EventOk(s.trace + events[..k], events[k]) && EventAgrees(store, events[k]) {
      assert events[k] in events;
    }
  }

  lemma QuietFits(s: State, actor: Actor, id: string, op: Op, after: Run)
    requires Core(s) && id in s.store.runs && Quiet(op)
    requires after.approvals == s.store.runs[id].approvals && after.id == id
    ensures var events := EventsOf(actor, s.store.runs[id], after, op);
            EventsFit(s, s.store.(runs := s.store.runs[id := after]), events) && RunAgrees(after, s.trace + events)
  {
    StoredIdIssued(s, id);
    var events := EventsOf(actor, s.store.runs[id], after, op);
    SameGatesAgree(s.store.runs[id], after, s.trace, events);
    QuietEvents(actor, s.store.runs[id], after, op);
    QuietEventsFit(s, s.store.(runs := s.store.runs[id := after]), id, events);
  }

  /** Every successful store call, by anyone, keeps the core invariant. */
  lemma CommitFits(s: State, actor: Actor, id: string, op: Op, at: Time)
    requires Core(s) && Update(s.store, id, op, at).1.Ok?
    ensures var after := Update(s.store, id, op, at).1.value;
            var events := EventsOf(actor, s.store.runs[id], after, op);
            EventsFit(s, Update(s.store, id, op, at).0, events) && RunAgrees(after, s.trace + events)
  {
    var run := s.store.runs[id];
    if op.AddApproval? {
      AddApprovalFits(s, actor, id, op.kind, op.summary, op.binding, at);
    } else if op.Decide? {
      DecideFits(s, actor, id, FindGate(run.approvals, op.gateId), op.decision, op.decidedBy, at);
    } else if op.Consume? {
      ConsumeFits(s, actor, id, FindGate(run.approvals, op.gateId), op.message, at);
    } else {
      StoredIdIssued(s, id);
      QuietLeavesGates(run, op, at);
      QuietFits(s, actor, id, op, Update(s.store, id, op, at).1.value);
    }
  }

  lemma CommitKeepsCore(s: State, actor: Actor, id: string, op: Op, at: Time)
    requires Core(s)
    ensures Core(Commit(s, actor, id, op, at).0)
    ensures s.trace <= Commit(s, actor, id, op, at).0.trace
    ensures Commit(s, actor, id, op, at).0.store.next == s.store.next
  {
    UpdateTouchesOneRun(s.store, id, op, at);
    UpdateKeeps(s.store, id, op, at);
    if Update(s.store, id, op, at).1.Ok? {
      var after := Update(s.store, id, op, at).1.value;
      var events := EventsOf(actor, s.store.runs[id], after, op);
      CommitFits(s, actor, id, op, at);
      TraceExtends(s.trace, events);
      EventsSurvive(s.store, id, after, s.trace);
      RunsSurvive(s.store, id, after, s.trace, events);
      var store := Update(s.store, id, op, at).0;
      forall e | e in s.trace + events ensures EventAgrees(store, e) {
        if e !in s.trace { assert e in events; }
      }
    }
  }

  lemma LaterIdsDiffer(n: nat)
    ensures IssuedBy(RunId(n), n)
  {
    forall m: nat | m > n ensures RunId(n) != RunId(m) {
      if RunId(n) == RunId(m) { RunIdInjective(n, m); }
    }
  }

  /** A store after a creation: a new id, a run without gates, and otherwise only runs it already held. */
  ghost predicate Created(before: Store, after: Store) {
    && StoreOk(after) && after.next == before.next + 1
    && (forall id :: id in after.runs ==>
          if id == RunId(before.next + 1) then after.runs[id].approvals == []
          else id in before.runs && after.runs[id] == before.runs[id])
  }

  lemma InsertedIsCreated(store: Store, run: Run)
    requires StoreOk(store) && NextNumber(store) == store.next + 1 && run.id == RunId(store.next + 1)
    requires RunOk(run) && run.approvals == []
    ensures Created(store, Evicted(Inserted(store, run)))
  {
    InsertThenEvict(store, run);
  }

  lemma CreateShape(s: State, req: CreateRequest, at: Time)
    requires StoreOk(s.store) && s.store.next + 1 < TWO_TO_64 && Creatable(req)
    ensures Created(s.store, CreateRunStep(s, req, at).store)
    ensures CreateRunStep(s, req, at).trace == s.trace + [RunCreated(RunId(s.store.next + 1))]
    ensures CreateRunStep(s, req, at).key == s.key && CreateRunStep(s, req, at).executions == s.executions
  {
    var run := NewRun(RunId(s.store.next + 1), req, at);
    NewRunOk(RunId(s.store.next + 1), req, at);
    CreateInsertsThenEvicts(s.store, req, at);
    InsertedIsCreated(s.store, run);
    var after := Evicted(Inserted(s.store, run));
    assert CreateRunStep(s, req, at) == s.(store := after, trace := s.trace + [RunCreated(run.id)]);
  }

  lemma EventSurvivesCreation(before: Store, after: Store, e: Event)
    requires Created(before, after) && EventAgrees(before, e)
    ensures EventAgrees(after, e) && e != RunCreated(RunId(before.next + 1))
  {
  }

  lemma CreationKeepsCore(s: State, after: State)
    requires Core(s) && Created(s.store, after.store) && after.key == s.key
    requires after.trace == s.trace + [RunCreated(RunId(s.store.next + 1))]
    ensures Core(after)
  {
    var e := RunCreated(RunId(s.store.next + 1));
    LaterIdsDiffer(s.store.next + 1);
    forall p | p in s.trace ensures EventAgrees(after.store, p) && p != e {
      assert EventAgrees(s.store, p);
      EventSurvivesCreation(s.store, after.store, p);
    }
    forall p | p in s.trace && p.RunCreated? ensures p.runId != e.runId { assert p != e; }
    Extend(EventOk, s.trace, e);
    forall id | id in after.store.runs ensures RunAgrees(after.store.runs[id], after.trace) {
      if id != e.runId { assert RunAgrees(s.store.runs[id], s.trace); }
    }
  }

  lemma CreateRunKeepsCore(s: State, req: CreateRequest, at: Time)
    requires Core(s) && s.store.next + 1 < TWO_TO_64
    ensures Core(CreateRunStep(s, req, at))
    ensures CreateRunStep(s, req, at).store.next <= s.store.next + 1
    ensures s.trace <= CreateRunStep(s, req, at).trace
  {
    if Creatable(req) {
      CreateShape(s, req, at);
      CreationKeepsCore(s, CreateRunStep(s, req, at));
    }
  }

  // ---- The calls in flight ----

  predicate BeforeInvocation(p: Progress) { !p.Invoking? && !p.Finished? }

  ghost predicate ExecutionOk(trace: seq<Event>, t: nat, e: Execution) {
    var c := e.ticket.call;
    && e.ticket.binding != UNBOUND
    && (BeforeInvocation(e.progress) ==> NotYetInvoked(trace, t))
    && match e.progress
       case Authorized(d) => d.status == Allowed ==> c.request.risk == RiskReadOnly
       case Unmatched(d) => d.status == ApprovalRequired
       case Matched(g) => GateCreated(c.runId, g, e.ticket.binding) in trace
       case Checked(d, op) =>
         d.status == Allowed ==> c.request.risk == RiskReadOnly && op == AddLog(LogAudit, e.ticket.audit, true)
       case Routed(d, run, gate) =>
         d.status == Allowed ==> run.logs != [] && Justified(trace, t, e.ticket, gate, LastLog(run))
       case Ready(gate, entry, seen) =>
         && Justified(trace, t, e.ticket, gate, entry)
         && Rechecked(t, seen) in trace && seen.id == c.runId && InScope(seen, c.request)
       case _ => true
  }

  ghost predicate ExecutionsOk(s: State) {
    forall t :: t in s.executions ==> ExecutionOk(s.trace, t, s.executions[t])
  }

  ghost predicate OnlyKnownInvoke(s: State) {
    forall p :: p in s.trace && p.Invoked? ==> p.thread in s.executions
  }

  ghost predicate Inv(s: State) {
    Core(s) && ExecutionsOk(s) && OnlyKnownInvoke(s)
  }

  /** The trace grew without an invocation by `t`. */
  ghost predicate GrowsQuietly(before: seq<Event>, after: seq<Event>, t: nat) {
    before <= after && forall p :: p in after && p.Invoked? && p.thread == t ==> p in before
  }

  lemma ExecutionSurvives(before: seq<Event>, after: seq<Event>, t: nat, e: Execution)
    requires ExecutionOk(before, t, e) && GrowsQuietly(before, after, t)
    ensures ExecutionOk(after, t, e)
  {
    assert forall p :: p in before ==> p in after;
  }

  lemma MoveKeeps(s: State, t: nat, progress: Progress)
    requires Inv(s) && t in s.executions
    requires ExecutionOk(s.trace, t, s.executions[t].(progress := progress))
    ensures Inv(Move(s, t, progress))
  {
  }

  lemma StoreCallsInvokeNothing(actor: Actor, before: Run, after: Run, op: Op)
    ensures forall e :: e in EventsOf(actor, before, after, op) ==> !e.Invoked?
  {
  }

  lemma CommitGrowsQuietly(s: State, actor: Actor, id: string, op: Op, at: Time, t: nat)
    ensures GrowsQuietly(s.trace, Commit(s, actor, id, op, at).0.trace, t)
    ensures Commit(s, actor, id, op, at).0.executions == s.executions
  {
    var r := Update(s.store, id, op, at).1;
    if r.Ok? && id in s.store.runs {
      StoreCallsInvokeNothing(actor, s.store.runs[id], r.value, op);
    }
  }

  lemma CommitKeeps(s: State, actor: Actor, id: string, op: Op, at: Time)
    requires Inv(s)
    ensures Inv(Commit(s, actor, id, op, at).0)
  {
    var after := Commit(s, actor, id, op, at).0;
    CommitKeepsCore(s, actor, id, op, at);
    CommitGrowsQuietly(s, actor, id, op, at, 0);
    forall t | t in s.executions ensures ExecutionOk(after.trace, t, s.executions[t]) {
      CommitGrowsQuietly(s, actor, id, op, at, t);
      ExecutionSurvives(s.trace, after.trace, t, s.executions[t]);
    }
    forall p | p in after.trace && p.Invoked? ensures p.thread in s.executions {
      CommitGrowsQuietly(s, actor, id, op, at, p.thread);
    }
  }

  /** No two events of a trace create, approve or spend the same gate, and no thread invokes twice. */
  lemma NothingHappensTwice(trace: seq<Event>, i: nat, j: nat)
    requires TraceOk(trace) && i < j < |trace|
    ensures trace[i].RunCreated? && trace[j].RunCreated? ==> trace[i].runId != trace[j].runId
    ensures trace[i].GateCreated? && trace[j].GateCreated? ==>
              !(trace[i].runId == trace[j].runId && trace[i].gateId == trace[j].gateId)
    ensures trace[i].GateApproved? && trace[j].GateApproved? ==>
              !(trace[i].runId == trace[j].runId && trace[i].gateId == trace[j].gateId)
    ensures trace[i].GateConsumed? && trace[j].GateConsumed? ==>
              !(trace[i].runId == trace[j].runId && trace[i].gateId == trace[j].gateId)
    ensures trace[i].Invoked? && trace[j].Invoked? ==> trace[i].thread != trace[j].thread
  {
    assert trace[i] == trace[..j][i];
    assert EventOk(trace[..j], trace[j]);
  }

  lemma CreatedOnce(trace: seq<Event>, r: string, g: string, b1: Fingerprint, b2: Fingerprint)
    requires TraceOk(trace) && GateCreated(r, g, b1) in trace && GateCreated(r, g, b2) in trace
    ensures b1 == b2
  {
    var i :| 0 <= i < |trace| && trace[i] == GateCreated(r, g, b1);
    var j :| 0 <= j < |trace| && trace[j] == GateCreated(r, g, b2);
    if i != j { NothingHappensTwice(trace, if i < j then i else j, if i < j then j else i); }
  }

  // ---- Every step keeps the invariant ----

  lemma AuthorizeStepKeeps(s: State, t: nat, policy: Option<Policy>, answer: Option<Entry>)
    requires Inv(s) && t in s.executions && s.executions[t].progress == Started
    ensures Inv(AuthorizeStep(s, t, s.executions[t], policy, answer))
  {
    var e := s.executions[t];
    assert ExecutionOk(s.trace, t, e);
    AllowedExactlyWhen(policy, answer, e.ticket.call.request);
    if Bindable(s.key, e.ticket.call) {
      MoveKeeps(s, t, Authorized(Authorize(policy, answer, e.ticket.call.request)));
    } else {
      MoveKeeps(s, t, Finished(Refused));
    }
  }

  lemma MatchKeeps(s: State, t: nat, d: Decision, i: nat)
    requires Inv(s) && t in s.executions && s.executions[t].progress == Authorized(d)
    requires var c := s.executions[t].ticket.call;
             && c.runId in s.store.runs && i < |s.store.runs[c.runId].approvals|
             && s.store.runs[c.runId].approvals[i].binding == s.executions[t].ticket.binding
             && s.executions[t].ticket.binding != UNBOUND
    ensures Inv(Move(s, t, Matched(s.store.runs[s.executions[t].ticket.call.runId].approvals[i].id)))
  {
    var c := s.executions[t].ticket.call;
    assert ExecutionOk(s.trace, t, s.executions[t]);
    GateOfRunWasCreated(s, c.runId, i);
    MoveKeeps(s, t, Matched(s.store.runs[c.runId].approvals[i].id));
  }

  lemma UnmatchedKeeps(s: State, t: nat, d: Decision)
    requires Inv(s) && t in s.executions && d.status == ApprovalRequired && BeforeInvocation(s.executions[t].progress)
    ensures Inv(Move(s, t, Unmatched(d)))
  {
    assert ExecutionOk(s.trace, t, s.executions[t]);
    MoveKeeps(s, t, Unmatched(d));
  }

  lemma TicketIsBound(s: State, t: nat)
    requires Inv(s) && t in s.executions
    ensures s.executions[t].ticket.binding != UNBOUND
  {
    assert ExecutionOk(s.trace, t, s.executions[t]);
  }

  lemma ScanStepKeeps(s: State, t: nat, d: Decision)
    requires Inv(s) && t in s.executions && s.executions[t].progress == Authorized(d) && d.status == ApprovalRequired
    ensures Inv(ScanStep(s, t, s.executions[t], d))
  {
    var c := s.executions[t].ticket.call;
    if c.runId !in s.store.runs || !InScope(s.store.runs[c.runId], c.request) {
      StopKeeps(s, t);
    } else {
      var gates := s.store.runs[c.runId].approvals;
      var i := FirstBoundGate(gates, s.executions[t].ticket.binding);
      if i < |gates| {
        assert ScanStep(s, t, s.executions[t], d) == Move(s, t, Matched(gates[i].id));
        TicketIsBound(s, t);
        MatchKeeps(s, t, d, i);
      } else {
        assert ScanStep(s, t, s.executions[t], d) == Move(s, t, Unmatched(d));
        UnmatchedKeeps(s, t, d);
      }
    }
  }

  lemma GateOfRunWasCreated(s: State, id: string, i: nat)
    requires Core(s) && id in s.store.runs && i < |s.store.runs[id].approvals|
    requires s.store.runs[id].approvals[i].binding != UNBOUND
    ensures GateCreated(id, s.store.runs[id].approvals[i].id, s.store.runs[id].approvals[i].binding) in s.trace
  {
    assert RunAgrees(s.store.runs[id], s.trace);
    assert GateAgrees(s.store.runs[id].id, s.store.runs[id].approvals[i], s.trace);
  }

  lemma LookUpStepKeeps(s: State, t: nat, d: Decision)
    requires Inv(s) && t in s.executions
    requires s.executions[t].progress == Authorized(d) || s.executions[t].progress == Unmatched(d)
    ensures Inv(LookUpStep(s, t, s.executions[t], d))
  {
    var e := s.executions[t];
    assert ExecutionOk(s.trace, t, e);
    MoveKeeps(s, t, Finished(Refused));
    var op := RecordingOp(e.ticket, d);
    if op.Some? { MoveKeeps(s, t, Checked(d, op.value)); }
  }

  lemma EndKeeps(s: State, t: nat, outcome: Outcome)
    requires Inv(s) && t in s.executions
    ensures Inv(Move(s, t, Finished(outcome)))
  {
    assert ExecutionOk(s.trace, t, s.executions[t]);
    MoveKeeps(s, t, Finished(outcome));
  }

  lemma StopKeeps(s: State, t: nat)
    requires Inv(s) && t in s.executions
    ensures Inv(Stop(s, t))
  {
    EndKeeps(s, t, Refused);
  }

  lemma AuditedBy(s: State, t: nat, id: string, audit: string, at: Time)
    requires Core(s) && Update(s.store, id, AddLog(LogAudit, audit, true), at).1.Ok?
    ensures var run := Update(s.store, id, AddLog(LogAudit, audit, true), at).1.value;
            && run.logs != [] && AuditEntryFor(LastLog(run), audit)
            && Audited(Caller(t), id, LastLog(run))
               in Commit(s, Caller(t), id, AddLog(LogAudit, audit, true), at).0.trace
  {
    StoredIdIssued(s, id);
  }

  lemma RecordStepKeeps(s: State, t: nat, d: Decision, op: Op, at: Time)
    requires Inv(s) && t in s.executions && s.executions[t].progress == Checked(d, op)
    ensures Inv(RecordStep(s, t, s.executions[t], d, op, at))
  {
    var e := s.executions[t];
    var (after, r) := Commit(s, Caller(t), e.ticket.call.runId, op, at);
    if r.Err? {
      StopKeeps(s, t);
    } else {
      assert ExecutionOk(s.trace, t, e);
      CommitKeeps(s, Caller(t), e.ticket.call.runId, op, at);
      CommitGrowsQuietly(s, Caller(t), e.ticket.call.runId, op, at, t);
      if d.status == Allowed { AuditedBy(s, t, e.ticket.call.runId, e.ticket.audit, at); }
      RoutedFollows(after, s.trace, t, e, d, r.value, None);
      MoveKeeps(after, t, Routed(d, r.value, None));
    }
  }

  lemma SpentGateIsBound(s: State, id: string, i: nat, binding: Fingerprint)
    requires Core(s) && id in s.store.runs && i < |s.store.runs[id].approvals|
    requires GateCreated(id, s.store.runs[id].approvals[i].id, binding) in s.trace
    requires s.store.runs[id].approvals[i].binding != UNBOUND
    ensures s.store.runs[id].approvals[i].binding == binding
  {
    GateOfRunWasCreated(s, id, i);
    CreatedOnce(s.trace, id, s.store.runs[id].approvals[i].id, s.store.runs[id].approvals[i].binding, binding);
  }

  /** What the spending call leaves in the log and in the trace. */
  lemma ConsumeLeaves(s: State, t: nat, id: string, g: string, message: string, at: Time)
    requires Core(s) && Update(s.store, id, Consume(g, message), at).1.Ok?
    ensures id in s.store.runs
    ensures var run := s.store.runs[id];
            var i := FindGate(run.approvals, g);
            var after := Update(s.store, id, Consume(g, message), at).1.value;
            var trace := Commit(s, Caller(t), id, Consume(g, message), at).0.trace;
            && i < |run.approvals| && run.approvals[i].binding != UNBOUND
            && after.logs != [] && LastLog(after).level == LogAudit
            && LastLog(after).message == TruncateText(message, MAX_LOG_MESSAGE)
            && GateConsumed(Caller(t), id, g, run.approvals[i].binding) in trace
            && Audited(Caller(t), id, LastLog(after)) in trace
  {
    var run := s.store.runs[id];
    var i := FindGate(run.approvals, g);
    ConsumeFits(s, Caller(t), id, i, message, at);
    var after := ConsumeAt(run, i, message, at).(updatedAt := at);
    var events := [GateConsumed(Caller(t), id, g, run.approvals[i].binding), Audited(Caller(t), id, LastLog(after))];
    assert Commit(s, Caller(t), id, Consume(g, message), at).0.trace == s.trace + events;
    assert events[0] in s.trace + events && events[1] in s.trace + events;
  }

  lemma SpentBy(s: State, t: nat, ticket: Ticket, g: string, at: Time)
    requires Core(s) && GateCreated(ticket.call.runId, g, ticket.binding) in s.trace
    requires Update(s.store, ticket.call.runId, Consume(g, ticket.audit), at).1.Ok?
    ensures var id := ticket.call.runId;
            var run := Update(s.store, id, Consume(g, ticket.audit), at).1.value;
            && run.logs != []
            && Justified(Commit(s, Caller(t), id, Consume(g, ticket.audit), at).0.trace, t, ticket, Some(g),
                         LastLog(run))
  {
    ConsumeLeaves(s, t, ticket.call.runId, g, ticket.audit, at);
    SpentGateIsBound(s, ticket.call.runId, FindGate(s.store.runs[ticket.call.runId].approvals, g), ticket.binding);
  }

  lemma SpendStepKeeps(s: State, t: nat, g: string, at: Time)
    requires Inv(s) && t in s.executions && s.executions[t].progress == Matched(g)
    ensures Inv(SpendStep(s, t, s.executions[t], g, at))
  {
    var e := s.executions[t];
    var op := Consume(g, e.ticket.audit);
    var (after, r) := Commit(s, Caller(t), e.ticket.call.runId, op, at);
    if r.Err? {
      StopKeeps(s, t);
    } else {
      assert ExecutionOk(s.trace, t, e);
      CommitKeeps(s, Caller(t), e.ticket.call.runId, op, at);
      CommitGrowsQuietly(s, Caller(t), e.ticket.call.runId, op, at, t);
      SpentBy(s, t, e.ticket, g, at);
      RoutedFollows(after, s.trace, t, e, Allow(), r.value, Some(g));
      MoveKeeps(after, t, Routed(Allow(), r.value, Some(g)));
    }
  }

  /** A thread whose store call succeeded may call its route recorded. */
  lemma RoutedFollows(after: State, before: seq<Event>, t: nat, e: Execution, d: Decision, run: Run,
                      gate: Option<string>)
    requires ExecutionOk(before, t, e) && GrowsQuietly(before, after.trace, t)
    requires e.progress.Matched? || e.progress.Checked?
    requires d.status == Allowed ==> run.logs != [] && Justified(after.trace, t, e.ticket, gate, LastLog(run))
    ensures ExecutionOk(after.trace, t, e.(progress := Routed(d, run, gate)))
  {
  }

  /** One more event of thread `t`, and its new progress. */
  lemma EventKeeps(s: State, t: nat, e: Event, progress: Progress)
    requires Inv(s) && t in s.executions
    requires EventOk(s.trace, e) && EventAgrees(s.store, e)
    requires e.Invoked? ==> e.thread == t
    requires ExecutionOk(s.trace + [e], t, s.executions[t].(progress := progress))
    ensures Inv(Move(s, t, progress).(trace := s.trace + [e]))
  {
    Extend(EventOk, s.trace, e);
    forall id | id in s.store.runs ensures RunAgrees(s.store.runs[id], s.trace + [e]) {
      assert RunAgrees(s.store.runs[id], s.trace);
    }
    forall other | other in s.executions && other != t
      ensures ExecutionOk(s.trace + [e], other, s.executions[other])
    {
      ExecutionSurvives(s.trace, s.trace + [e], other, s.executions[other]);
    }
  }

  lemma ActiveRunHasNotEnded(s: State, id: string)
    requires Core(s) && id in s.store.runs && ActiveRun(s.store.runs[id])
    ensures RunEnded(id) !in s.trace
  {
    var e := RunEnded(id);
    assert e in s.trace ==> EventAgrees(s.store, e);
  }

  lemma ReadyKeeps(s: State, t: nat, d: Decision, run: Run, gate: Option<string>)
    requires Inv(s) && t in s.executions && s.executions[t].progress == Routed(d, run, gate)
    requires var c := s.executions[t].ticket.call;
             d.status == Allowed && c.runId in s.store.runs && RouteValid(d, s.store.runs[c.runId], c) && run.logs != []
    ensures var current := s.store.runs[s.executions[t].ticket.call.runId];
            Inv(Move(s, t, Ready(gate, LastLog(run), current)).(trace := s.trace + [Rechecked(t, current)]))
  {
    var e := s.executions[t];
    assert ExecutionOk(s.trace, t, e);
    var current := s.store.runs[e.ticket.call.runId];
    ActiveRunHasNotEnded(s, e.ticket.call.runId);
    var event := Rechecked(t, current);
    assert event in s.trace + [event];
    EventKeeps(s, t, event, Ready(gate, LastLog(run), current));
  }

  lemma RecheckStepKeeps(s: State, t: nat, d: Decision, run: Run, gate: Option<string>)
    requires Inv(s) && t in s.executions && s.executions[t].progress == Routed(d, run, gate)
    ensures Inv(RecheckStep(s, t, s.executions[t], d, run, gate))
  {
    var c := s.executions[t].ticket.call;
    if !RouteValid(d, run, c) {
      StopKeeps(s, t);
    } else if d.status != Allowed {
      EndKeeps(s, t, Recorded(d));
    } else if c.runId !in s.store.runs || !RouteValid(d, s.store.runs[c.runId], c) || run.logs == [] {
      StopKeeps(s, t);
    } else {
      ReadyKeeps(s, t, d, run, gate);
    }
  }

  lemma InvokeStepKeeps(s: State, t: nat, gate: Option<string>, entry: LogEntry, seen: Run)
    requires Inv(s) && t in s.executions && s.executions[t].progress == Ready(gate, entry, seen)
    ensures Inv(InvokeStep(s, t, s.executions[t], gate, entry, seen))
  {
    var e := s.executions[t];
    assert ExecutionOk(s.trace, t, e);
    EventKeeps(s, t, Invoked(t, e.ticket, gate, entry, seen), Invoking);
  }

  lemma GuardStepKeeps(s: State, t: nat)
    requires Inv(s) && t in s.executions && s.executions[t].progress == Arrived
    ensures Inv(GuardStep(s, t, s.executions[t]))
  {
    StopKeeps(s, t);
    assert ExecutionOk(s.trace, t, s.executions[t]);
    MoveKeeps(s, t, Started);
  }

  lemma ThreadStepKeeps(s: State, t: nat, a: Action)
    requires Inv(s) && t in s.executions
    ensures Inv(ThreadStep(s, t, a))
  {
    var p := s.executions[t].progress;
    if a.Guard? {
      if p.Arrived? { GuardStepKeeps(s, t); }
    } else if a.Authorizes? {
      if p.Started? { AuthorizeStepKeeps(s, t, a.policy, a.answer); }
    } else if a.Scan? {
      if p.Authorized? && p.decision.status == ApprovalRequired { ScanStepKeeps(s, t, p.decision); }
    } else if a.LookUp? {
      if p.Authorized? || p.Unmatched? { LookUpStepKeeps(s, t, p.decision); }
    } else if a.Record? {
      if p.Checked? { RecordStepKeeps(s, t, p.decision, p.op, a.at); }
    } else if a.Spend? {
      if p.Matched? { SpendStepKeeps(s, t, p.gateId, a.at); }
    } else if a.Recheck? {
      if p.Routed? { RecheckStepKeeps(s, t, p.decision, p.run, p.gate); }
    } else if a.Invoke? {
      if p.Ready? { InvokeStepKeeps(s, t, p.gate, p.entry, p.seen); }
    } else if a.Return? {
      EndKeeps(s, t, Executed);
    } else if a.Abandon? {
      StopKeeps(s, t);
    }
  }
}
