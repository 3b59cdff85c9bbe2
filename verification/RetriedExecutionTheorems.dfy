/**
 Two invocations under one idempotency key, gates or no gates, are separated by a failure of the first or by its
 eviction: the retry table over the execution protocol, in every interleaving of both.
 */
module RetriedExecutionTheorems {
  import opened Wrappers
  import opened Traces
  import opened Utf8
  import Framing
  import opened ApprovalBinding
  import opened RetriedExecution
  import AgentRuns
  import Routing
  import Retry = Attempts
  import RetryLaws = AttemptsTheorems
  import Tools = ToolExecution
  import ToolLaws = ToolExecutionSafety

  // ---- The two halves of the log ----

  function TableEvents(log: seq<Joint>): seq<Retry.Event> {
    if log == [] then []
    else
      TableEvents(log[..|log| - 1]) + (if log[|log| - 1].OfTable? then [log[|log| - 1].retry] else [])
  }

  function ToolEvents(log: seq<Joint>): seq<Tools.Event> {
    if log == [] then []
    else
      ToolEvents(log[..|log| - 1]) + (if log[|log| - 1].OfTools? then [log[|log| - 1].tool] else [])
  }

  lemma HalvesSnoc(log: seq<Joint>, e: Joint)
    ensures TableEvents(log + [e]) == TableEvents(log) + if e.OfTable? then [e.retry] else []
    ensures ToolEvents(log + [e]) == ToolEvents(log) + if e.OfTools? then [e.tool] else []
  {
    assert (log + [e])[..|log + [e]| - 1] == log;
  }

  lemma {:induction false} HalvesWithTable(log: seq<Joint>, events: seq<Retry.Event>)
    ensures TableEvents(log + TableLog(events)) == TableEvents(log) + events
    ensures ToolEvents(log + TableLog(events)) == ToolEvents(log)
  {
    if events == [] {
      assert log + TableLog(events) == log;
    } else {
      var before, last := events[..|events| - 1], events[|events| - 1];
      HalvesWithTable(log, before);
      assert log + TableLog(events) == (log + TableLog(before)) + [OfTable(last)];
      HalvesSnoc(log + TableLog(before), OfTable(last));
    }
  }

  lemma {:induction false} HalvesWithTools(log: seq<Joint>, events: seq<Tools.Event>)
    ensures ToolEvents(log + ToolLog(events)) == ToolEvents(log) + events
    ensures TableEvents(log + ToolLog(events)) == TableEvents(log)
  {
    if events == [] {
      assert log + ToolLog(events) == log;
    } else {
      var before, last := events[..|events| - 1], events[|events| - 1];
      HalvesWithTools(log, before);
      assert log + ToolLog(events) == (log + ToolLog(before)) + [OfTools(last)];
      HalvesSnoc(log + ToolLog(before), OfTools(last));
    }
  }

  /** Where an event of the log stands among the events of the table. */
  function Rank(log: seq<Joint>, i: nat): nat
    requires i <= |log|
  {
    |TableEvents(log[..i])|
  }

  lemma {:induction false} RankIsMonotone(log: seq<Joint>, i: nat, j: nat)
    requires i <= j <= |log|
    ensures Rank(log, i) <= Rank(log, j) <= |TableEvents(log)|
    ensures TableEvents(log[..i]) <= TableEvents(log[..j]) <= TableEvents(log)
    decreases |log| - i
  {
    assert log[..|log|] == log;
    if i < |log| {
      assert log[..i + 1] == log[..i] + [log[i]];
      HalvesSnoc(log[..i], log[i]);
      RankIsMonotone(log, i + 1, if i < j then j else |log|);
      if i < j { RankIsMonotone(log, i + 1, j); }
    }
  }

  lemma RankedEvent(log: seq<Joint>, i: nat)
    requires i < |log| && log[i].OfTable?
    ensures Rank(log, i) < |TableEvents(log)| && TableEvents(log)[Rank(log, i)] == log[i].retry
    ensures Rank(log, i + 1) == Rank(log, i) + 1
  {
    assert log[..i + 1] == log[..i] + [log[i]];
    HalvesSnoc(log[..i], log[i]);
    RankIsMonotone(log, i + 1, |log|);
  }

  /** Every event of the table is somewhere in the log, and the orders agree. */
  lemma {:induction false} Unranked(log: seq<Joint>, k: nat) returns (i: nat)
    requires k < |TableEvents(log)|
    ensures i < |log| && log[i] == OfTable(TableEvents(log)[k]) && Rank(log, i) == k
  {
    var before := log[..|log| - 1];
    assert log == before + [log[|log| - 1]];
    HalvesSnoc(before, log[|log| - 1]);
    if k < |TableEvents(before)| {
      i := Unranked(before, k);
      assert log[..i] == before[..i];
    } else {
      i := |log| - 1;
    }
  }

  lemma LaterRank(log: seq<Joint>, i: nat, j: nat)
    requires i < |log| && j < |log| && Rank(log, i) < Rank(log, j)
    ensures i < j
  {
    if j <= i { RankIsMonotone(log, j, i); }
  }

  // ---- What the log obeys ----

  predicate Starts(e: Joint, id: nat) { e.OfTable? && e.retry.Started? && e.retry.id == id }

  predicate Ends(e: Joint, id: nat) { e.OfTable? && e.retry.Ended? && e.retry.id == id }

  predicate Invokes(e: Joint, id: nat) { e.OfTools? && e.tool.Invoked? && e.tool.thread == id }

  ghost predicate StartIn(log: seq<Joint>, id: nat) { exists i :: 0 <= i < |log| && Starts(log[i], id) }

  ghost predicate EndIn(log: seq<Joint>, id: nat) { exists i :: 0 <= i < |log| && Ends(log[i], id) }

  ghost predicate InvocationIn(log: seq<Joint>, id: nat) { exists i :: 0 <= i < |log| && Invokes(log[i], id) }

  /**
   An invocation lies between the start and the end of its attempt, once; an attempt that invoked never asks for
   approval.
   */
  ghost predicate Law(before: seq<Joint>, e: Joint) {
    && (e.OfTools? && e.tool.Invoked? ==>
          StartIn(before, e.tool.thread) && !EndIn(before, e.tool.thread) && !InvocationIn(before, e.tool.thread))
    && (e.OfTable? && e.retry.Ended? && InvocationIn(before, e.retry.id) ==>
          e.retry.answer.Err? || e.retry.answer.value.decision.status == Routing.Allowed)
  }

  predicate Unremarkable(e: Joint) {
    !(e.OfTools? && e.tool.Invoked?) && !(e.OfTable? && e.retry.Ended?)
  }

  lemma {:induction false} UnremarkableExtends(log: seq<Joint>, events: seq<Joint>)
    requires Lawful(Law, log) && forall i :: 0 <= i < |events| ==> Unremarkable(events[i])
    ensures Lawful(Law, log + events)
  {
    if events == [] {
      assert log + events == log;
    } else {
      var before := events[..|events| - 1];
      UnremarkableExtends(log, before);
      assert log + events == (log + before) + [events[|events| - 1]];
      Extend(Law, log + before, events[|events| - 1]);
    }
  }

  // ---- The state ----

  predicate Silent(p: Tools.Progress) {
    ToolLaws.BeforeInvocation(p) || (p.Finished? && p.outcome.Recorded?)
  }

  /** Executions are numbered by attempts, and one that is under way belongs to an attempt that is. */
  ghost predicate Numbered(table: Retry.Table, executions: map<nat, Tools.Execution>) {
    forall t :: t in executions ==>
      t < |table.records| && (!executions[t].progress.Finished? ==> !table.records[t].Done())
  }

  /** Executions that have not got to an invocation, or ended in a record, have invoked nothing. */
  ghost predicate SilenceKept(executions: map<nat, Tools.Execution>, log: seq<Joint>) {
    && (forall t :: t in executions && Silent(executions[t].progress) ==> !InvocationIn(log, t))
    && (forall t :: InvocationIn(log, t) ==> t in executions)
  }

  /** What ties the log to the two traces and the executions to the attempts. */
  ghost predicate Tied(table: Retry.Table, tableTrace: seq<Retry.Event>, tools: Tools.State, log: seq<Joint>) {
    && TableEvents(log) == tableTrace && ToolEvents(log) == tools.trace
    && Numbered(table, tools.executions)
    && SilenceKept(tools.executions, log)
    && Lawful(Law, log)
  }

  ghost predicate TableInv(table: Retry.State) {
    RetryLaws.Inv(table) && Retry.StateWellFormed(table)
  }

  ghost predicate Inv(s: State) {
    TableInv(s.table) && Tied(s.table.table, s.table.trace, s.tools, s.log)
  }

  // ---- Steps of the executions ----

  /** What a step of thread `t`, or of nobody, does to the executions and the trace. */
  ghost predicate Grows(s: Tools.State, after: Tools.State) {
    && s.trace <= after.trace && after.executions.Keys == s.executions.Keys
    && (forall t :: t in s.executions ==> ProgressFollows(s.executions[t].progress, after.executions[t].progress))
  }

  predicate ProgressFollows(p: Tools.Progress, q: Tools.Progress) {
    && (p.Finished? ==> q == p)
    && (Silent(q) ==> Silent(p))
  }

  ghost predicate InvokesNothing(events: seq<Tools.Event>) {
    forall i :: 0 <= i < |events| ==> !events[i].Invoked?
  }

  lemma CommitGrows(s: Tools.State, actor: Tools.Actor, id: string, op: AgentRuns.Op, at: AgentRuns.Time)
    ensures var after := Tools.Commit(s, actor, id, op, at).0;
            && s.trace <= after.trace && after.executions == s.executions
            && InvokesNothing(after.trace[|s.trace|..])
  {
    var (store, r) := AgentRuns.Update(s.store, id, op, at);
    if r.Ok? && id in s.store.runs {
      ToolLaws.StoreCallsInvokeNothing(actor, s.store.runs[id], r.value, op);
      var events := Tools.EventsOf(actor, s.store.runs[id], r.value, op);
      assert (s.trace + events)[|s.trace|..] == events;
    }
  }

  lemma RecordGrows(s: Tools.State, t: nat, d: Routing.Decision, op: AgentRuns.Op, at: AgentRuns.Time)
    requires t in s.executions && ToolLaws.BeforeInvocation(s.executions[t].progress)
    ensures var after := Tools.RecordStep(s, t, s.executions[t], d, op, at);
            Grows(s, after) && InvokesNothing(after.trace[|s.trace|..])
  {
    CommitGrows(s, Tools.Caller(t), s.executions[t].ticket.call.runId, op, at);
  }

  lemma SpendGrows(s: Tools.State, t: nat, g: string, at: AgentRuns.Time)
    requires t in s.executions && ToolLaws.BeforeInvocation(s.executions[t].progress)
    ensures var after := Tools.SpendStep(s, t, s.executions[t], g, at);
            Grows(s, after) && InvokesNothing(after.trace[|s.trace|..])
  {
    CommitGrows(s, Tools.Caller(t), s.executions[t].ticket.call.runId,
                AgentRuns.Consume(g, s.executions[t].ticket.audit), at);
  }

  lemma RecheckGrows(s: Tools.State, t: nat, d: Routing.Decision, run: AgentRuns.Run, gate: Option<string>)
    requires t in s.executions && ToolLaws.BeforeInvocation(s.executions[t].progress)
    ensures var after := Tools.RecheckStep(s, t, s.executions[t], d, run, gate);
            Grows(s, after) && InvokesNothing(after.trace[|s.trace|..])
  {
    var after := Tools.RecheckStep(s, t, s.executions[t], d, run, gate);
    assert |after.trace| <= |s.trace| + 1;
    if |after.trace| > |s.trace| { assert after.trace[|s.trace|..][0].Rechecked?; }
  }

  /** Every step of a thread but the invocation itself. */
  lemma ThreadGrows(s: Tools.State, t: nat, a: Tools.Action)
    requires t in s.executions && !(a.Invoke? && s.executions[t].progress.Ready?)
    ensures var after := Tools.ThreadStep(s, t, a); Grows(s, after) && InvokesNothing(after.trace[|s.trace|..])
  {
    var p := s.executions[t].progress;
    if a.Record? && p.Checked? {
      RecordGrows(s, t, p.decision, p.op, a.at);
    } else if a.Spend? && p.Matched? {
      SpendGrows(s, t, p.gateId, a.at);
    } else if a.Recheck? && p.Routed? {
      RecheckGrows(s, t, p.decision, p.run, p.gate);
    } else {
      assert s.trace[|s.trace|..] == [];
    }
  }

  lemma CreationGrows(s: Tools.State, req: AgentRuns.CreateRequest, at: AgentRuns.Time)
    ensures var after := Tools.CreateRunStep(s, req, at); Grows(s, after) && InvokesNothing(after.trace[|s.trace|..])
  {
    var after := Tools.CreateRunStep(s, req, at);
    assert |after.trace| <= |s.trace| + 1;
    if |after.trace| > |s.trace| { assert after.trace[|s.trace|..][0].RunCreated?; }
  }

  predicate IsInvocation(s: Tools.State, a: Tools.Action) {
    a.Invoke? && a.thread in s.executions && s.executions[a.thread].progress.Ready?
  }

  lemma ToolsGrow(s: Tools.State, a: Tools.Action)
    requires !a.Begin? && !IsInvocation(s, a)
    ensures var after := Tools.Apply(s, a); Grows(s, after) && InvokesNothing(after.trace[|s.trace|..])
  {
    if a.CreateRun? {
      CreationGrows(s, a.req, a.at);
    } else if a.ChangeRun? {
      CommitGrows(s, Tools.Environment, a.runId, a.op, a.at);
    } else if a.thread in s.executions {
      ThreadGrows(s, a.thread, a);
    } else {
      assert s.trace[|s.trace|..] == [];
    }
  }

  lemma InvocationsStay(log: seq<Joint>, events: seq<Joint>, t: nat)
    requires forall i :: 0 <= i < |events| ==> !Invokes(events[i], t)
    ensures InvocationIn(log + events, t) <==> InvocationIn(log, t)
  {
    if InvocationIn(log, t) {
      var i :| 0 <= i < |log| && Invokes(log[i], t);
      assert Invokes((log + events)[i], t);
    }
    if InvocationIn(log + events, t) {
      var i :| 0 <= i < |log + events| && Invokes((log + events)[i], t);
      assert i < |log|;
    }
  }

  lemma QuietToolStepKeeps(s: State, a: Tools.Action)
    requires Inv(s) && !a.Begin? && !IsInvocation(s.tools, a)
    ensures Inv(ToolStep(s, a))
  {
    ToolsGrow(s.tools, a);
    var after := ToolStep(s, a);
    var events := Grown(s.tools.trace, after.tools.trace);
    assert after.tools.trace == s.tools.trace + events;
    HalvesWithTools(s.log, events);
    UnremarkableExtends(s.log, ToolLog(events));
    forall t ensures InvocationIn(after.log, t) <==> InvocationIn(s.log, t) {
      InvocationsStay(s.log, ToolLog(events), t);
    }
  }

  lemma TableHasStart(s: State, id: nat)
    requires Inv(s) && id < |s.table.table.records|
    ensures StartIn(s.log, id)
    ensures !s.table.table.records[id].Done() ==> !EndIn(s.log, id)
  {
    var records := s.table.table.records;
    assert RetryLaws.StartSeen(records[id], id, s.table.trace);
    var k :| 0 <= k < |s.table.trace| && RetryLaws.StartsRecord(s.table.trace[k], records[id], id);
    var i := Unranked(s.log, k);
    assert Starts(s.log[i], id);
    if !records[id].Done() {
      forall j | 0 <= j < |s.log| ensures !Ends(s.log[j], id) {
        if s.log[j].OfTable? {
          RankedEvent(s.log, j);
          assert s.table.trace[Rank(s.log, j)] == s.log[j].retry;
        }
      }
    }
  }

  lemma InvocationLawful(log: seq<Joint>, e: Joint, t: nat)
    requires Lawful(Law, log) && Invokes(e, t) && StartIn(log, t) && !EndIn(log, t) && !InvocationIn(log, t)
    ensures Lawful(Law, log + [e])
  {
    Extend(Law, log, e);
  }

  lemma InvocationEndsSilence(before: map<nat, Tools.Execution>, after: map<nat, Tools.Execution>, log: seq<Joint>,
                              e: Joint, t: nat)
    requires SilenceKept(before, log) && Invokes(e, t) && t in before
    requires after == before[t := before[t].(progress := Tools.Invoking)]
    ensures SilenceKept(after, log + [e])
  {
    forall u | u != t ensures InvocationIn(log + [e], u) <==> InvocationIn(log, u) { InvocationsStay(log, [e], u); }
  }

  lemma InvocationKeepsTied(table: Retry.Table, trace: seq<Retry.Event>, tools: Tools.State, after: Tools.State,
                            log: seq<Joint>, t: nat, e: Tools.Event)
    requires Tied(table, trace, tools, log) && t in tools.executions && Silent(tools.executions[t].progress)
    requires !tools.executions[t].progress.Finished? && StartIn(log, t) && !EndIn(log, t)
    requires e.Invoked? && e.thread == t && after.trace == tools.trace + [e]
    requires after.executions == tools.executions[t := tools.executions[t].(progress := Tools.Invoking)]
    ensures Tied(table, trace, after, log + [OfTools(e)])
  {
    HalvesSnoc(log, OfTools(e));
    InvocationLawful(log, OfTools(e), t);
    InvocationEndsSilence(tools.executions, after.executions, log, OfTools(e), t);
  }

  lemma InvocationStep(tools: Tools.State, a: Tools.Action) returns (e: Tools.Event)
    requires IsInvocation(tools, a)
    ensures var after := Tools.Apply(tools, a);
            && e.Invoked? && e.thread == a.thread && after.trace == tools.trace + [e]
            && after.executions
               == tools.executions[a.thread := tools.executions[a.thread].(progress := Tools.Invoking)]
  {
    var p := tools.executions[a.thread].progress;
    e := Tools.Invoked(a.thread, tools.executions[a.thread].ticket, p.gate, p.entry, p.seen);
  }

  /** A step that shows the observer one event. */
  lemma ToolStepLogs(s: State, a: Tools.Action, e: Tools.Event)
    requires Tools.Apply(s.tools, a).trace == s.tools.trace + [e]
    ensures ToolStep(s, a) == s.(tools := Tools.Apply(s.tools, a), log := s.log + [OfTools(e)])
  {
    assert Grown(s.tools.trace, s.tools.trace + [e]) == [e];
    assert ToolLog([e]) == [OfTools(e)];
  }

  lemma InvocationKeeps(s: State, a: Tools.Action)
    requires Inv(s) && IsInvocation(s.tools, a)
    ensures Inv(ToolStep(s, a))
  {
    var e := InvocationStep(s.tools, a);
    ToolStepLogs(s, a, e);
    TableHasStart(s, a.thread);
    InvocationKeepsTied(s.table.table, s.table.trace, s.tools, Tools.Apply(s.tools, a), s.log, a.thread, e);
  }

  // ---- Steps of the table ----

  lemma RequestTraceGrows(s: Retry.State, t: nat, key: Retry.AttemptKey, fingerprint: Framing.Fingerprint)
    requires Retry.WellFormed(s.table)
    ensures var after := Retry.RequestStep(s, t, key, fingerprint);
            && s.trace <= after.trace
            && forall i :: |s.trace| <= i < |after.trace| ==> !after.trace[i].Ended?
  {
  }

  lemma TableTraceGrows(s: Retry.State, a: Retry.Action)
    requires Retry.StateWellFormed(s) && !a.Complete?
    ensures s.trace <= Retry.Apply(s, a).trace
    ensures forall i :: |s.trace| <= i < |Retry.Apply(s, a).trace| ==> !Retry.Apply(s, a).trace[i].Ended?
  {
    match a
    case Request(t, runId, key, request, arguments) =>
      RequestTraceGrows(s, t, Retry.AttemptKey(runId, key), RetryFingerprint(request, arguments));
    case _ =>
  }

  lemma RequestRecordsStay(s: Retry.State, t: nat, key: Retry.AttemptKey, fingerprint: Framing.Fingerprint)
    requires Retry.WellFormed(s.table)
    ensures s.table.records <= Retry.RequestStep(s, t, key, fingerprint).table.records
  {
  }

  /** A step that is not a completion leaves every attempt as done as it was. */
  lemma RecordsStay(s: Retry.State, a: Retry.Action)
    requires Retry.StateWellFormed(s) && !a.Complete?
    ensures s.table.records <= Retry.Apply(s, a).table.records
  {
    match a
    case Request(t, runId, key, request, arguments) =>
      RequestRecordsStay(s, t, Retry.AttemptKey(runId, key), RetryFingerprint(request, arguments));
    case _ =>
  }

  lemma MoreRecordsKeepTied(table: Retry.Table, table': Retry.Table, trace: seq<Retry.Event>, events: seq<Retry.Event>,
                            tools: Tools.State, log: seq<Joint>)
    requires Tied(table, trace, tools, log) && table.records <= table'.records
    requires forall i :: 0 <= i < |events| ==> !events[i].Ended?
    ensures Tied(table', trace + events, tools, log + TableLog(events))
  {
    HalvesWithTable(log, events);
    forall t ensures InvocationIn(log + TableLog(events), t) <==> InvocationIn(log, t) {
      InvocationsStay(log, TableLog(events), t);
    }
    UnremarkableExtends(log, TableLog(events));
  }

  lemma TableInvKeeps(table: Retry.State, a: Retry.Action)
    requires TableInv(table)
    ensures TableInv(Retry.Apply(table, a))
  {
    RetryLaws.StepKeeps(table, a);
  }

  lemma QuietTableKeeps(s: State, after: Retry.State)
    requires Inv(s) && TableInv(after) && s.table.trace <= after.trace && s.table.table.records <= after.table.records
    requires forall i :: |s.table.trace| <= i < |after.trace| ==> !after.trace[i].Ended?
    ensures Inv(WithTable(s, after))
  {
    var events := after.trace[|s.table.trace|..];
    assert after.trace == s.table.trace + events && Grown(s.table.trace, after.trace) == events;
    MoreRecordsKeepTied(s.table.table, after.table, s.table.trace, events, s.tools, s.log);
  }

  lemma QuietTableStepKeeps(s: State, a: Retry.Action)
    requires Inv(s) && !a.Complete?
    ensures Inv(TableStep(s, a))
  {
    TableInvKeeps(s.table, a);
    TableTraceGrows(s.table, a);
    RecordsStay(s.table, a);
    QuietTableKeeps(s, Retry.Apply(s.table, a));
  }

  lemma BeginKeepsTied(table: Retry.Table, trace: seq<Retry.Event>, tools: Tools.State, log: seq<Joint>, id: nat,
                       c: Call)
    requires Tied(table, trace, tools, log) && id < |table.records| && !table.records[id].Done()
             && id !in tools.executions
    ensures var after := Tools.Apply(tools, Tools.Begin(id, c, true));
            after.trace == tools.trace && Tied(table, trace, after, log)
  {
  }

  lemma BeginKeeps(s: State, id: nat, c: Call)
    requires Inv(s) && id < |s.table.table.records| && !s.table.table.records[id].Done() && id !in s.tools.executions
    ensures Inv(ToolStep(s, Tools.Begin(id, c, true)))
  {
    BeginKeepsTied(s.table.table, s.table.trace, s.tools, s.log, id, c);
    var after := ToolStep(s, Tools.Begin(id, c, true));
    assert Grown(s.tools.trace, after.tools.trace) == [];
    assert after.log == s.log;
  }

  /** A caller that becomes an owner owns a new attempt. */
  predicate OwnsNewAttempt(before: Retry.State, after: Retry.State, t: nat) {
    t in after.callers && after.callers[t].progress.Running? ==>
      && after.callers[t].progress.id == |before.table.records| < |after.table.records|
      && !after.table.records[|before.table.records|].Done()
  }

  lemma RequestOwns(table: Retry.State, t: nat, key: Retry.AttemptKey, fingerprint: Framing.Fingerprint)
    requires Retry.WellFormed(table.table)
    ensures OwnsNewAttempt(table, Retry.RequestStep(table, t, key, fingerprint), t)
  {
  }

  lemma NewOwner(table: Retry.State, t: nat, runId: string, key: string, request: Routing.Request, arguments: Bytes)
    requires Retry.StateWellFormed(table)
    ensures var after := Retry.Apply(table, Retry.Request(t, runId, key, request, arguments));
            if t in table.callers then after == table else OwnsNewAttempt(table, after, t)
  {
    RequestOwns(table, t, Retry.AttemptKey(runId, key), RetryFingerprint(request, arguments));
  }

  lemma OwnerBegins(s: State, next: State, t: nat, c: Call)
    requires Inv(s) && Inv(next) && next.tools == s.tools && OwnsNewAttempt(s.table, next.table, t)
    requires Owned(next, t).Some?
    ensures Inv(ToolStep(next, Tools.Begin(Owned(next, t).value, c, true)))
  {
    BeginKeeps(next, Owned(next, t).value, c);
  }

  lemma RequestKeeps(s: State, t: nat, runId: string, key: string, request: Routing.Request, arguments: Bytes)
    requires Inv(s)
    ensures Inv(RequestStep(s, t, runId, key, request, arguments))
  {
    var a := Retry.Request(t, runId, key, request, arguments);
    QuietTableStepKeeps(s, a);
    NewOwner(s.table, t, runId, key, request, arguments);
    var next := TableStep(s, a);
    if Owned(s, t).None? && Owned(next, t).Some? {
      OwnerBegins(s, next, t, Call(runId, request, arguments));
    }
  }

  // ---- The completion ----

  lemma AnswerFollows(s: State, id: nat, result: Retry.ToolResult, text: string, panics: bool)
    requires Inv(s) && CallbackOf(s, id, result, text, panics).Some? && InvocationIn(s.log, id)
    ensures var answer := Retry.Judge(CallbackOf(s, id, result, text, panics).value);
            answer.Err? || answer.value.decision.status == Routing.Allowed
  {
  }

  lemma CompletionKeepsTied(table: Retry.Table, trace: seq<Retry.Event>, tools: Tools.State, log: seq<Joint>,
                            t: nat, key: Retry.AttemptKey, id: nat, answer: Retry.Answer)
    requires Tied(table, trace, tools, log) && id < |table.records|
    requires id in tools.executions ==> tools.executions[id].progress.Finished?
    requires InvocationIn(log, id) ==> answer.Err? || answer.value.decision.status == Routing.Allowed
    ensures var e := Retry.Ended(t, key, id, answer);
            Tied(Retry.FinishIn(table, key, id, answer), trace + [e], tools, log + [OfTable(e)])
  {
    var e := OfTable(Retry.Ended(t, key, id, answer));
    HalvesSnoc(log, e);
    Extend(Law, log, e);
    forall u ensures InvocationIn(log + [e], u) <==> InvocationIn(log, u) {
      InvocationsStay(log, [e], u);
    }
  }

  lemma CompletedTable(table: Retry.State, t: nat, callback: Retry.Callback)
    requires Retry.StateWellFormed(table) && t in table.callers && table.callers[t].progress.Running?
    ensures var after := Retry.Apply(table, Retry.Complete(t, callback));
            var (key, id) := (table.callers[t].key, table.callers[t].progress.id);
            && id < |table.table.records|
            && after.table == Retry.FinishIn(table.table, key, id, Retry.Judge(callback))
            && after.trace == table.trace + [Retry.Ended(t, key, id, Retry.Judge(callback))]
  {
  }

  lemma TableStepLogs(s: State, after: Retry.State, e: Retry.Event)
    requires after.trace == s.table.trace + [e]
    ensures WithTable(s, after) == s.(table := after, log := s.log + [OfTable(e)])
  {
    assert Grown(s.table.trace, s.table.trace + [e]) == [e];
    assert TableLog([e]) == [OfTable(e)];
  }

  lemma CompletionKeeps(s: State, after: Retry.State, t: nat, key: Retry.AttemptKey, id: nat, answer: Retry.Answer)
    requires Inv(s) && TableInv(after) && id < |s.table.table.records|
    requires after.table == Retry.FinishIn(s.table.table, key, id, answer)
    requires after.trace == s.table.trace + [Retry.Ended(t, key, id, answer)]
    requires id in s.tools.executions ==> s.tools.executions[id].progress.Finished?
    requires InvocationIn(s.log, id) ==> answer.Err? || answer.value.decision.status == Routing.Allowed
    ensures Inv(WithTable(s, after))
  {
    var e := Retry.Ended(t, key, id, answer);
    CompletionKeepsTied(s.table.table, s.table.trace, s.tools, s.log, t, key, id, answer);
    TableStepLogs(s, after, e);
  }

  lemma CompletionStepKeeps(s: State, t: nat, id: nat, callback: Retry.Callback)
    requires Inv(s) && Owned(s, t) == Some(id)
    requires id in s.tools.executions ==> s.tools.executions[id].progress.Finished?
    requires InvocationIn(s.log, id) ==>
               Retry.Judge(callback).Err? || Retry.Judge(callback).value.decision.status == Routing.Allowed
    ensures Inv(TableStep(s, Retry.Complete(t, callback)))
  {
    TableInvKeeps(s.table, Retry.Complete(t, callback));
    CompletedTable(s.table, t, callback);
    CompletionKeeps(s, Retry.Apply(s.table, Retry.Complete(t, callback)), t, s.table.callers[t].key, id,
                    Retry.Judge(callback));
  }

  lemma CompleteKeeps(s: State, t: nat, result: Retry.ToolResult, text: string, panics: bool)
    requires Inv(s)
    ensures Inv(CompleteStep(s, t, result, text, panics))
  {
    if Owned(s, t).Some? && CallbackOf(s, Owned(s, t).value, result, text, panics).Some? {
      var id := Owned(s, t).value;
      if InvocationIn(s.log, id) { AnswerFollows(s, id, result, text, panics); }
      CompletionStepKeeps(s, t, id, CallbackOf(s, id, result, text, panics).value);
    }
  }

  lemma StepKeeps(s: State, a: Action)
    requires Inv(s)
    ensures Inv(RetriedExecution.Apply(s, a))
  {
    match a
    case Request(t, runId, key, request, arguments) => RequestKeeps(s, t, runId, key, request, arguments);
    case Tool(action) =>
      if !action.Begin? {
        if IsInvocation(s.tools, action) { InvocationKeeps(s, action); } else { QuietToolStepKeeps(s, action); }
      }
    case Complete(t, result, text, panics) => CompleteKeeps(s, t, result, text, panics);
    case Wake(t) => QuietTableStepKeeps(s, Retry.Wake(t));
    case GiveUp(t) => QuietTableStepKeeps(s, Retry.GiveUp(t));
  }

  lemma {:induction false} RunKeeps(s: State, actions: seq<Action>)
    requires Inv(s)
    ensures Inv(RetriedExecution.After(s, actions))
  {
    if actions != [] {
      RunKeeps(s, actions[..|actions| - 1]);
      StepKeeps(RetriedExecution.After(s, actions[..|actions| - 1]), actions[|actions| - 1]);
    }
  }

  // ---- The theorems ----

  ghost predicate Reachable(s: State) {
    exists key: Bytes, maxRuns: int, maxEntries: int, actions: seq<Action> ::
      s == RetriedExecution.After(Initial(key, maxRuns, maxEntries), actions)
  }

  lemma InitialKeeps(key: Bytes, maxRuns: int, maxEntries: int)
    ensures Inv(Initial(key, maxRuns, maxEntries))
  {
    var s := Initial(key, maxRuns, maxEntries);
    assert RetryLaws.Inv(s.table);
  }

  lemma ReachableInv(s: State)
    requires Reachable(s)
    ensures Inv(s)
  {
    var key: Bytes, maxRuns: int, maxEntries: int, actions: seq<Action> :|
      s == RetriedExecution.After(Initial(key, maxRuns, maxEntries), actions);
    InitialKeeps(key, maxRuns, maxEntries);
    RunKeeps(Initial(key, maxRuns, maxEntries), actions);
  }

  /** The invocation of an attempt lies after its start and before its end, and there is one at most. */
  lemma InvocationLiesInItsAttempt(s: State, i: nat)
    requires Reachable(s) && i < |s.log| && s.log[i].OfTools? && s.log[i].tool.Invoked?
    ensures exists a :: 0 <= a < i && Starts(s.log[a], s.log[i].tool.thread)
    ensures forall m :: 0 <= m < i ==> !Ends(s.log[m], s.log[i].tool.thread)
    ensures forall j :: 0 <= j < |s.log| && Invokes(s.log[j], s.log[i].tool.thread) ==> j == i
  {
    ReachableInv(s);
    var id := s.log[i].tool.thread;
    LawAt(s.log, i);
    var a :| 0 <= a < i && Starts(s.log[..i][a], id);
    assert s.log[a] == s.log[..i][a];
    forall m | 0 <= m < i ensures !Ends(s.log[m], id) && !Invokes(s.log[m], id) {
      assert s.log[..i][m] == s.log[m];
    }
    forall j | i < j < |s.log| ensures !Invokes(s.log[j], id) {
      LawAt(s.log, j);
      assert s.log[..j][i] == s.log[i];
    }
  }

  lemma LawAt(log: seq<Joint>, i: nat)
    requires Lawful(Law, log) && i < |log|
    ensures Law(log[..i], log[i])
  {
  }

  // ---- From the orders of the table to the order of the log ----

  lemma EndedAfterInLog(log: seq<Joint>, before: seq<Retry.Event>, a: nat, n: nat, id: nat) returns (m: nat)
    requires a < |log| && before <= TableEvents(log) && RetryLaws.EndedAfter(before, Rank(log, a), id)
    requires n <= |log| && |before| <= Rank(log, n)
    ensures a < m < n && Ends(log[m], id)
  {
    var k :| Rank(log, a) < k < |before| && k >= 0 && RetryLaws.Ends(before[k], id);
    m := Unranked(log, k);
    LaterRank(log, a, m);
    if m >= n { RankIsMonotone(log, n, m); }
  }

  /** The event that let go of an attempt's key, in the log. */
  predicate LetsGo(e: Joint, key: Retry.AttemptKey, id: nat) {
    e.OfTable? && RetryLaws.Frees(e.retry, key, id)
  }

  lemma FreedAfterInLog(log: seq<Joint>, before: seq<Retry.Event>, a: nat, n: nat, key: Retry.AttemptKey, id: nat)
    returns (m: nat)
    requires a < |log| && before <= TableEvents(log) && RetryLaws.FreedAfter(before, Rank(log, a), key, id)
    requires n <= |log| && |before| <= Rank(log, n)
    ensures a < m < n && LetsGo(log[m], key, id)
  {
    var k :| Rank(log, a) < k < |before| && k >= 0 && RetryLaws.Frees(before[k], key, id);
    m := Unranked(log, k);
    LaterRank(log, a, m);
    if m >= n { RankIsMonotone(log, n, m); }
  }

  lemma TableLawAt(s: State, b: nat)
    requires Inv(s) && b < |s.log| && s.log[b].OfTable?
    ensures Rank(s.log, b) < |s.table.trace|
    ensures RetryLaws.EventOk(s.table.trace[..Rank(s.log, b)], s.log[b].retry)
  {
    RankedEvent(s.log, b);
    assert RetryLaws.EventOk(s.table.trace[..Rank(s.log, b)], s.table.trace[Rank(s.log, b)]);
  }

  /** Of two starts of one key the first has ended, and was let go, before the second. */
  lemma StartsAreSeparated(s: State, a: nat, b: nat) returns (e: nat, m: nat)
    requires Inv(s) && a < b < |s.log|
    requires s.log[a].OfTable? && s.log[a].retry.Started? && s.log[b].OfTable? && s.log[b].retry.Started?
    requires s.log[a].retry.key == s.log[b].retry.key
    ensures a < e < b && Ends(s.log[e], s.log[a].retry.id)
    ensures a < m < b && LetsGo(s.log[m], s.log[a].retry.key, s.log[a].retry.id)
  {
    TableLawAt(s, b);
    RankedEvent(s.log, a);
    RankIsMonotone(s.log, a + 1, b);
    var before := s.table.trace[..Rank(s.log, b)];
    assert before[Rank(s.log, a)] == s.log[a].retry;
    e := EndedAfterInLog(s.log, before, a, b, s.log[a].retry.id);
    m := FreedAfterInLog(s.log, before, a, b, s.log[a].retry.key, s.log[a].retry.id);
  }

  /** An eviction of a key comes after the end of each of its attempts. */
  lemma EvictionComesAfterEnd(s: State, a: nat, m: nat) returns (e: nat)
    requires Inv(s) && a < m < |s.log|
    requires s.log[a].OfTable? && s.log[a].retry.Started?
    requires s.log[m].OfTable? && s.log[m].retry.Evicted? && s.log[a].retry.key in s.log[m].retry.keys
    ensures a < e < m && Ends(s.log[e], s.log[a].retry.id)
  {
    TableLawAt(s, m);
    RankedEvent(s.log, a);
    RankIsMonotone(s.log, a + 1, m);
    var before := s.table.trace[..Rank(s.log, m)];
    assert before[Rank(s.log, a)] == s.log[a].retry;
    e := EndedAfterInLog(s.log, before, a, m, s.log[a].retry.id);
  }

  /** An attempt that invoked and ended before its key was let go by its end has failed. */
  lemma EndOfInvokedAttempt(s: State, i: nat, m: nat, id: nat)
    requires Inv(s) && i < m < |s.log| && Invokes(s.log[i], id) && Ends(s.log[m], id)
    requires RetryLaws.Retryable(s.log[m].retry.answer)
    ensures s.log[m].retry.answer.Err?
  {
    LawAt(s.log, m);
    assert s.log[..m][i] == s.log[i];
  }

  /** The start of attempt `id` under `key`, at position a. */
  predicate StartsUnder(e: Joint, key: Retry.AttemptKey, id: nat) { Starts(e, id) && e.retry.key == key }

  /**
   In every interleaving of requests, retries, executions, approvals and failures: between two invocations under one
   run and idempotency key, with an approval or without, the first attempt has failed or its key was evicted.
   */
  lemma InvocationsUnderOneKeyAreSeparated(s: State, i: nat, j: nat, a: nat, b: nat, key: Retry.AttemptKey)
    requires Reachable(s) && i < j < |s.log| && a < |s.log| && b < |s.log|
    requires s.log[i].OfTools? && s.log[i].tool.Invoked? && s.log[j].OfTools? && s.log[j].tool.Invoked?
    requires StartsUnder(s.log[a], key, s.log[i].tool.thread) && StartsUnder(s.log[b], key, s.log[j].tool.thread)
    ensures exists m :: i < m < j && s.log[m].OfTable?
              && (|| (Ends(s.log[m], s.log[i].tool.thread) && s.log[m].retry.answer.Err?)
                  || (s.log[m].retry.Evicted? && key in s.log[m].retry.keys))
  {
    ReachableInv(s);
    var first, second := s.log[i].tool.thread, s.log[j].tool.thread;
    InvocationLiesInItsAttempt(s, i);
    InvocationLiesInItsAttempt(s, j);
    assert first != second;
    StartPrecedesInvocation(s, a, i, first);
    StartPrecedesInvocation(s, b, j, second);
    if b < a {
      var e, _ := StartsAreSeparated(s, b, a);
    } else {
      var e, m := StartsAreSeparated(s, a, b);
      if s.log[m].retry.Evicted? {
        var d := EvictionComesAfterEnd(s, a, m);
      } else {
        EndOfInvokedAttempt(s, i, m, first);
      }
    }
  }

  /** The start of an attempt that invoked lies before the invocation. */
  lemma StartPrecedesInvocation(s: State, a: nat, i: nat, id: nat)
    requires Inv(s) && a < |s.log| && i < |s.log| && Starts(s.log[a], id) && Invokes(s.log[i], id)
    ensures a < i
  {
    LawAt(s.log, i);
    var b :| 0 <= b < i && Starts(s.log[..i][b], id);
    assert s.log[b] == s.log[..i][b];
    if b < a { LaterStartsHaveLargerIds(s, b, a); }
  }

  lemma LaterStartsHaveLargerIds(s: State, b: nat, a: nat)
    requires Inv(s) && b < a < |s.log|
    requires s.log[a].OfTable? && s.log[a].retry.Started? && s.log[b].OfTable? && s.log[b].retry.Started?
    ensures s.log[b].retry.id < s.log[a].retry.id
  {
    TableLawAt(s, a);
    RankedEvent(s.log, b);
    RankIsMonotone(s.log, b + 1, a);
    assert s.table.trace[..Rank(s.log, a)][Rank(s.log, b)] == s.log[b].retry;
  }

  // ---- The executions are a run of the protocol ----

  lemma StepOfTools(s: State, a: Action) returns (step: Option<Tools.Action>)
    requires Retry.StateWellFormed(s.table)
    ensures RetriedExecution.Apply(s, a).tools == if step.None? then s.tools else Tools.Apply(s.tools, step.value)
  {
    step := None;
    if a.Tool? && !a.action.Begin? {
      step := Some(a.action);
    } else if a.Request? {
      var next := TableStep(s, Retry.Request(a.caller, a.runId, a.key, a.request, a.arguments));
      if Owned(s, a.caller).None? && Owned(next, a.caller).Some? {
        step := Some(Tools.Begin(Owned(next, a.caller).value, Call(a.runId, a.request, a.arguments), true));
      }
    }
  }

  lemma ToolsSnoc(s: Tools.State, steps: seq<Tools.Action>, a: Tools.Action)
    ensures Tools.After(s, steps + [a]) == Tools.Apply(Tools.After(s, steps), a)
  {
    assert (steps + [a])[..|steps + [a]| - 1] == steps;
  }

  /** With the table taken away, every run is a run of the execution protocol, so all of its theorems hold here too. */
  lemma {:induction false} ExecutionsAreARun(key: Bytes, maxRuns: int, maxEntries: int, actions: seq<Action>)
    ensures exists steps: seq<Tools.Action> ::
              RetriedExecution.After(Initial(key, maxRuns, maxEntries), actions).tools
              == Tools.After(Tools.Initial(key, maxRuns), steps)
  {
    if actions == [] {
      assert Tools.After(Tools.Initial(key, maxRuns), []) == Tools.Initial(key, maxRuns);
    } else {
      var before, last := actions[..|actions| - 1], actions[|actions| - 1];
      ExecutionsAreARun(key, maxRuns, maxEntries, before);
      var s := RetriedExecution.After(Initial(key, maxRuns, maxEntries), before);
      var steps: seq<Tools.Action> :| s.tools == Tools.After(Tools.Initial(key, maxRuns), steps);
      var step := StepOfTools(s, last);
      if step.Some? { ToolsSnoc(Tools.Initial(key, maxRuns), steps, step.value); }
    }
  }
}
