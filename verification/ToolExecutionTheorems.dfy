/** What the safety invariant says about every reachable trace of approval-gated execution. */
module ToolExecutionTheorems {
  import opened Wrappers
  import opened Utf8
  import opened Framing
  import opened AgentRuns
  import opened Routing
  import opened ApprovalBinding
  import opened ToolExecution
  import opened ToolExecutionSafety

  // ---- Tickets are genuine ----

  predicate PastValidation(p: Progress) {
    p.Authorized? || p.Matched? || p.Unmatched? || p.Checked? || p.Routed? || p.Ready?
  }

  predicate Issued(key: Bytes, ticket: Ticket) {
    ticket == TicketFor(key, ticket.call) && Representable(ticket.call)
  }

  predicate GenuineExecution(key: Bytes, e: Execution) {
    Issued(key, e.ticket) && (PastValidation(e.progress) ==> Bindable(key, e.ticket.call))
  }

  predicate GenuineTicket(key: Bytes, ticket: Ticket) {
    Issued(key, ticket) && Bindable(key, ticket.call)
  }

  ghost predicate Genuine(s: State) {
    && (forall t :: t in s.executions ==> GenuineExecution(s.key, s.executions[t]))
    && (forall p :: p in s.trace && p.Invoked? ==> GenuineTicket(s.key, p.ticket))
  }

  /** What a step of thread `t` leaves alone. */
  ghost predicate OnlyThread(s: State, after: State, t: nat) {
    && after.key == s.key && after.executions.Keys == s.executions.Keys && t in s.executions
    && (forall u :: u in s.executions && u != t ==> after.executions[u] == s.executions[u])
    && after.executions[t].ticket == s.executions[t].ticket
    && (PastValidation(after.executions[t].progress) ==>
          PastValidation(s.executions[t].progress) || Bindable(s.key, s.executions[t].ticket.call))
    && (forall p :: p in after.trace && p.Invoked? && p !in s.trace ==>
          p.ticket == s.executions[t].ticket && PastValidation(s.executions[t].progress))
  }

  lemma CommitLeaves(s: State, actor: Actor, id: string, op: Op, at: Time)
    ensures var after := Commit(s, actor, id, op, at).0;
            && after.key == s.key && after.executions == s.executions
            && forall p :: p in after.trace && p.Invoked? ==> p in s.trace
  {
    forall p | p in Commit(s, actor, id, op, at).0.trace && p.Invoked? ensures p in s.trace {
      CommitGrowsQuietly(s, actor, id, op, at, p.thread);
    }
    CommitGrowsQuietly(s, actor, id, op, at, 0);
  }

  lemma StoreStepsAreOfThread(s: State, t: nat, e: Execution, op: Op, at: Time, d: Decision, gate: Option<string>)
    requires t in s.executions && s.executions[t] == e && PastValidation(e.progress)
    ensures var (after, r) := Commit(s, Caller(t), e.ticket.call.runId, op, at);
            r.Ok? ==> OnlyThread(s, Move(after, t, Routed(d, r.value, gate)), t)
  {
    CommitLeaves(s, Caller(t), e.ticket.call.runId, op, at);
  }

  lemma MoveIsOfThread(s: State, t: nat, p: Progress)
    requires t in s.executions
    requires PastValidation(p) ==>
               PastValidation(s.executions[t].progress) || Bindable(s.key, s.executions[t].ticket.call)
    ensures OnlyThread(s, Move(s, t, p), t)
  {
  }

  lemma AuthorizeStepIsOfThread(s: State, t: nat, policy: Option<Policy>, answer: Option<Entry>)
    requires t in s.executions
    ensures OnlyThread(s, AuthorizeStep(s, t, s.executions[t], policy, answer), t)
  {
    var c := s.executions[t].ticket.call;
    if Bindable(s.key, c) { MoveIsOfThread(s, t, Authorized(Authorize(policy, answer, c.request))); }
    MoveIsOfThread(s, t, Finished(Refused));
  }

  lemma ScanStepIsOfThread(s: State, t: nat, d: Decision)
    requires t in s.executions && PastValidation(s.executions[t].progress)
    ensures OnlyThread(s, ScanStep(s, t, s.executions[t], d), t)
  {
    var c := s.executions[t].ticket.call;
    MoveIsOfThread(s, t, Finished(Refused));
    MoveIsOfThread(s, t, Unmatched(d));
    if c.runId in s.store.runs {
      var gates := s.store.runs[c.runId].approvals;
      var i := FirstBoundGate(gates, s.executions[t].ticket.binding);
      if i < |gates| { MoveIsOfThread(s, t, Matched(gates[i].id)); }
    }
  }

  lemma LookUpStepIsOfThread(s: State, t: nat, d: Decision)
    requires t in s.executions && PastValidation(s.executions[t].progress)
    ensures OnlyThread(s, LookUpStep(s, t, s.executions[t], d), t)
  {
    var op := RecordingOp(s.executions[t].ticket, d);
    MoveIsOfThread(s, t, Finished(Refused));
    if op.Some? { MoveIsOfThread(s, t, Checked(d, op.value)); }
  }

  lemma RecordStepIsOfThread(s: State, t: nat, d: Decision, op: Op, at: Time)
    requires t in s.executions && PastValidation(s.executions[t].progress)
    ensures OnlyThread(s, RecordStep(s, t, s.executions[t], d, op, at), t)
  {
    MoveIsOfThread(s, t, Finished(Refused));
    StoreStepsAreOfThread(s, t, s.executions[t], op, at, d, None);
  }

  lemma SpendStepIsOfThread(s: State, t: nat, g: string, at: Time)
    requires t in s.executions && PastValidation(s.executions[t].progress)
    ensures OnlyThread(s, SpendStep(s, t, s.executions[t], g, at), t)
  {
    var e := s.executions[t];
    MoveIsOfThread(s, t, Finished(Refused));
    StoreStepsAreOfThread(s, t, e, Consume(g, e.ticket.audit), at, Allow(), Some(g));
  }

  /** A move together with one event; only a validated thread invokes. */
  lemma EventIsOfThread(s: State, t: nat, p: Progress, e: Event)
    requires t in s.executions && PastValidation(s.executions[t].progress)
    requires e.Invoked? ==> e.ticket == s.executions[t].ticket
    ensures OnlyThread(s, Move(s, t, p).(trace := s.trace + [e]), t)
  {
    MoveIsOfThread(s, t, p);
  }

  lemma RecheckStepIsOfThread(s: State, t: nat, d: Decision, run: Run, gate: Option<string>)
    requires t in s.executions && PastValidation(s.executions[t].progress)
    ensures OnlyThread(s, RecheckStep(s, t, s.executions[t], d, run, gate), t)
  {
    var c := s.executions[t].ticket.call;
    MoveIsOfThread(s, t, Finished(Refused));
    MoveIsOfThread(s, t, Finished(Recorded(d)));
    if c.runId in s.store.runs && run.logs != [] {
      var current := s.store.runs[c.runId];
      EventIsOfThread(s, t, Ready(gate, LastLog(run), current), Rechecked(t, current));
    }
  }

  lemma ThreadStepIsOfThread(s: State, t: nat, a: Action)
    requires t in s.executions
    ensures OnlyThread(s, ThreadStep(s, t, a), t)
  {
    var p := s.executions[t].progress;
    if a.Guard? {
      MoveIsOfThread(s, t, Finished(Refused));
      MoveIsOfThread(s, t, Started);
    } else if a.Authorizes? {
      AuthorizeStepIsOfThread(s, t, a.policy, a.answer);
    } else if a.Scan? {
      if p.Authorized? { ScanStepIsOfThread(s, t, p.decision); }
    } else if a.LookUp? {
      if p.Authorized? || p.Unmatched? { LookUpStepIsOfThread(s, t, p.decision); }
    } else if a.Record? {
      if p.Checked? { RecordStepIsOfThread(s, t, p.decision, p.op, a.at); }
    } else if a.Spend? {
      if p.Matched? { SpendStepIsOfThread(s, t, p.gateId, a.at); }
    } else if a.Recheck? {
      if p.Routed? { RecheckStepIsOfThread(s, t, p.decision, p.run, p.gate); }
    } else if a.Invoke? {
      if p.Ready? {
        EventIsOfThread(s, t, Invoking, Invoked(t, s.executions[t].ticket, p.gate, p.entry, p.seen));
      }
    } else if a.Return? {
      MoveIsOfThread(s, t, Finished(Executed));
    } else if a.Abandon? {
      MoveIsOfThread(s, t, Finished(Refused));
    }
  }

  lemma ThreadIsGenuine(s: State, after: State, t: nat)
    requires Genuine(s) && OnlyThread(s, after, t)
    ensures GenuineExecution(s.key, after.executions[t])
    ensures forall p :: p in after.trace && p.Invoked? ==> GenuineTicket(s.key, p.ticket)
  {
    assert GenuineExecution(s.key, s.executions[t]);
  }

  lemma OnlyThreadIsGenuine(s: State, after: State, t: nat)
    requires Genuine(s) && OnlyThread(s, after, t)
    ensures Genuine(after)
  {
    ThreadIsGenuine(s, after, t);
    forall u | u in after.executions ensures GenuineExecution(s.key, after.executions[u]) {
      if u != t { assert GenuineExecution(s.key, s.executions[u]); }
    }
  }

  lemma NewExecutionKeepsInv(s: State, t: nat, e: Execution)
    requires Inv(s) && t !in s.executions
    requires e.ticket.binding != UNBOUND && (e.progress == Arrived || e.progress == Started)
    ensures Inv(s.(executions := s.executions[t := e]))
  {
    assert ExecutionOk(s.trace, t, e);
  }

  lemma NewExecutionIsGenuine(s: State, t: nat, e: Execution)
    requires Genuine(s) && GenuineExecution(s.key, e)
    ensures Genuine(s.(executions := s.executions[t := e]))
  {
    var after := s.(executions := s.executions[t := e]);
    forall u | u in after.executions ensures GenuineExecution(s.key, after.executions[u]) {
      if u != t { assert GenuineExecution(s.key, s.executions[u]); }
    }
  }

  lemma FreshExecutionIsGenuine(key: Bytes, c: Call, progress: Progress)
    requires Representable(c) && (progress == Arrived || progress == Started)
    ensures GenuineExecution(key, Execution(TicketFor(key, c), progress)) && TicketFor(key, c).binding != UNBOUND
  {
  }

  lemma NewExecutionKeeps(s: State, t: nat, c: Call, progress: Progress)
    requires Inv(s) && Genuine(s) && t !in s.executions && Representable(c)
    requires progress == Arrived || progress == Started
    ensures var after := s.(executions := s.executions[t := Execution(TicketFor(s.key, c), progress)]);
            Inv(after) && Genuine(after)
  {
    FreshExecutionIsGenuine(s.key, c, progress);
    NewExecutionKeepsInv(s, t, Execution(TicketFor(s.key, c), progress));
    NewExecutionIsGenuine(s, t, Execution(TicketFor(s.key, c), progress));
  }

  lemma BeginKeeps(s: State, t: nat, c: Call, guarded: bool)
    requires Inv(s) && Genuine(s)
    ensures Inv(ToolExecution.Apply(s, Begin(t, c, guarded))) && Genuine(ToolExecution.Apply(s, Begin(t, c, guarded)))
  {
    if t !in s.executions && Representable(c) {
      NewExecutionKeeps(s, t, c, if guarded then Arrived else Started);
    }
  }

  lemma CreatedRunKeepsInv(s: State, after: State)
    requires Inv(s) && Core(after) && after.executions == s.executions
    requires after.trace == s.trace + [RunCreated(RunId(s.store.next + 1))]
    ensures Inv(after)
  {
    forall t | t in s.executions ensures ExecutionOk(after.trace, t, s.executions[t]) {
      ExecutionSurvives(s.trace, after.trace, t, s.executions[t]);
    }
  }

  lemma CreateRunKeeps(s: State, req: CreateRequest, at: Time)
    requires Inv(s) && Genuine(s) && s.store.next + 1 < TWO_TO_64
    ensures Inv(CreateRunStep(s, req, at)) && Genuine(CreateRunStep(s, req, at))
    ensures CreateRunStep(s, req, at).key == s.key
    ensures CreateRunStep(s, req, at).store.next <= s.store.next + 1
  {
    if Creatable(req) {
      CreateRunKeepsCore(s, req, at);
      CreateShape(s, req, at);
      CreatedRunKeepsInv(s, CreateRunStep(s, req, at));
    }
  }

  lemma StoreMovesOnly(s: State, t: nat, a: Action)
    requires t in s.executions && Inv(s)
    ensures ThreadStep(s, t, a).store.next == s.store.next
  {
    var e := s.executions[t];
    if a.Record? {
      if e.progress.Checked? { CommitKeepsCore(s, Caller(t), e.ticket.call.runId, e.progress.op, a.at); }
    } else if a.Spend? {
      if e.progress.Matched? {
        CommitKeepsCore(s, Caller(t), e.ticket.call.runId, Consume(e.progress.gateId, e.ticket.audit), a.at);
      }
    }
  }

  lemma ChangeRunKeeps(s: State, id: string, op: Op, at: Time)
    requires Inv(s) && Genuine(s)
    ensures var after := Commit(s, Environment, id, op, at).0;
            Inv(after) && Genuine(after) && after.key == s.key && after.store.next == s.store.next
  {
    CommitKeeps(s, Environment, id, op, at);
    CommitKeepsCore(s, Environment, id, op, at);
    CommitLeaves(s, Environment, id, op, at);
  }

  lemma ThreadActionKeeps(s: State, t: nat, a: Action)
    requires Inv(s) && Genuine(s) && t in s.executions
    ensures var after := ThreadStep(s, t, a);
            Inv(after) && Genuine(after) && after.key == s.key && after.store.next == s.store.next
  {
    ThreadStepKeeps(s, t, a);
    ThreadStepIsOfThread(s, t, a);
    OnlyThreadIsGenuine(s, ThreadStep(s, t, a), t);
    StoreMovesOnly(s, t, a);
  }

  lemma ThreadActionIsStep(s: State, a: Action)
    requires !a.CreateRun? && !a.ChangeRun? && !a.Begin?
    ensures ToolExecution.Apply(s, a) == if a.thread in s.executions then ThreadStep(s, a.thread, a) else s
  {
  }

  /** Every action of every actor keeps both invariants. */
  lemma ActionKeeps(s: State, a: Action)
    requires Inv(s) && Genuine(s) && (a.CreateRun? ==> s.store.next + 1 < TWO_TO_64)
    ensures Inv(ToolExecution.Apply(s, a)) && Genuine(ToolExecution.Apply(s, a))
            && ToolExecution.Apply(s, a).key == s.key
    ensures ToolExecution.Apply(s, a).store.next <= s.store.next + if a.CreateRun? then 1 else 0
  {
    if a.CreateRun? {
      CreateRunKeeps(s, a.req, a.at);
    } else if a.ChangeRun? {
      ChangeRunKeeps(s, a.runId, a.op, a.at);
    } else if a.Begin? {
      BeginKeeps(s, a.thread, a.call, a.guarded);
    } else {
      ThreadActionIsStep(s, a);
      if a.thread in s.executions { ThreadActionKeeps(s, a.thread, a); }
    }
  }

  lemma InitialKeeps(key: Bytes, maxRuns: int)
    ensures Inv(Initial(key, maxRuns)) && Genuine(Initial(key, maxRuns))
  {
  }

  /** Both invariants hold after any sequence of actions, whoever interleaves them. */
  lemma {:induction false} Reachable(key: Bytes, maxRuns: int, actions: seq<Action>)
    requires RunsCreated(actions) < TWO_TO_64
    ensures var s := ToolExecution.After(Initial(key, maxRuns), actions);
            Inv(s) && Genuine(s) && s.key == key && s.store.next <= RunsCreated(actions)
  {
    if actions == [] {
      InitialKeeps(key, maxRuns);
    } else {
      var before := actions[..|actions| - 1];
      Reachable(key, maxRuns, before);
      ActionKeeps(ToolExecution.After(Initial(key, maxRuns), before), actions[|actions| - 1]);
    }
  }

  // ---- The theorems ----

  /** The trace of one run of the whole system. */
  function TraceOf(key: Bytes, maxRuns: int, actions: seq<Action>): seq<Event> {
    ToolExecution.After(Initial(key, maxRuns), actions).trace
  }

  lemma ReachableTrace(key: Bytes, maxRuns: int, actions: seq<Action>)
    requires RunsCreated(actions) < TWO_TO_64
    ensures TraceOk(TraceOf(key, maxRuns, actions))
    ensures forall p :: p in TraceOf(key, maxRuns, actions) && p.Invoked? ==> GenuineTicket(key, p.ticket)
  {
    Reachable(key, maxRuns, actions);
  }

  lemma EventAt(trace: seq<Event>, k: nat, e: Event) returns (i: nat)
    requires k <= |trace| && e in trace[..k]
    ensures i < k && trace[i] == e
  {
    i :| 0 <= i < k && trace[..k][i] == e;
  }

  /**
   An invocation that needed approval is preceded, in this order, by the creation, the approval and the spending by
   its own thread of one gate of its run, all three under the binding of exactly its run, request and arguments.
   */
  lemma ApprovedInvocationHistory(key: Bytes, maxRuns: int, actions: seq<Action>, k: nat)
    returns (created: nat, approved: nat, spent: nat)
    requires RunsCreated(actions) < TWO_TO_64
    requires k < |TraceOf(key, maxRuns, actions)| && TraceOf(key, maxRuns, actions)[k].Invoked?
    requires TraceOf(key, maxRuns, actions)[k].gate.Some?
    ensures var trace := TraceOf(key, maxRuns, actions);
            var (t, c, g) := (trace[k].thread, trace[k].ticket.call, trace[k].gate.value);
            && created < approved < spent < k
            && trace[created] == GateCreated(c.runId, g, BindingFor(key, c))
            && trace[approved] == GateApproved(c.runId, g, BindingFor(key, c))
            && trace[spent] == GateConsumed(Caller(t), c.runId, g, BindingFor(key, c))
  {
    ReachableTrace(key, maxRuns, actions);
    var trace := TraceOf(key, maxRuns, actions);
    created, approved, spent := GateStory(trace, k);
    assert GenuineTicket(key, trace[k].ticket);
  }

  lemma GateStory(trace: seq<Event>, k: nat) returns (created: nat, approved: nat, spent: nat)
    requires TraceOk(trace) && k < |trace| && trace[k].Invoked? && trace[k].gate.Some?
    ensures var (t, ticket, g) := (trace[k].thread, trace[k].ticket, trace[k].gate.value);
            && created < approved < spent < k
            && trace[created] == GateCreated(ticket.call.runId, g, ticket.binding)
            && trace[approved] == GateApproved(ticket.call.runId, g, ticket.binding)
            && trace[spent] == GateConsumed(Caller(t), ticket.call.runId, g, ticket.binding)
  {
    var (t, ticket, g) := (trace[k].thread, trace[k].ticket, trace[k].gate.value);
    assert EventOk(trace[..k], trace[k]);
    spent := EventAt(trace, k, GateConsumed(Caller(t), ticket.call.runId, g, ticket.binding));
    assert EventOk(trace[..spent], trace[spent]);
    approved := EventAt(trace, spent, GateApproved(ticket.call.runId, g, ticket.binding));
    assert EventOk(trace[..approved], trace[approved]);
    created := EventAt(trace, approved, GateCreated(ticket.call.runId, g, ticket.binding));
  }

  /** Two invocations never rest on the same gate. */
  lemma GatesAreNotShared(key: Bytes, maxRuns: int, actions: seq<Action>, j: nat, k: nat)
    requires RunsCreated(actions) < TWO_TO_64
    requires var trace := TraceOf(key, maxRuns, actions);
             && j < |trace| && k < |trace| && trace[j].Invoked? && trace[k].Invoked?
             && trace[j].gate.Some? && trace[j].gate == trace[k].gate
             && trace[j].ticket.call.runId == trace[k].ticket.call.runId
    ensures j == k
  {
    ReachableTrace(key, maxRuns, actions);
    SameGateSameInvocation(TraceOf(key, maxRuns, actions), j, k);
  }

  lemma SameGateSameInvocation(trace: seq<Event>, j: nat, k: nat)
    requires TraceOk(trace) && j < |trace| && k < |trace| && trace[j].Invoked? && trace[k].Invoked?
    requires trace[j].gate.Some? && trace[j].gate == trace[k].gate
    requires trace[j].ticket.call.runId == trace[k].ticket.call.runId
    ensures j == k
  {
    var _, _, u := GateStory(trace, j);
    var _, _, v := GateStory(trace, k);
    if u != v { NothingHappensTwice(trace, if u < v then u else v, if u < v then v else u); }
    if j != k { NothingHappensTwice(trace, if j < k then j else k, if j < k then k else j); }
  }

  /** The invocations of exactly this operation that needed approval. */
  function ApprovedInvocations(trace: seq<Event>, c: Call): set<nat> {
    set k: nat | k < |trace| && trace[k].Invoked? && trace[k].ticket.call == c && trace[k].gate.Some?
  }

  /** The approvals of gates bound to exactly this operation; each gate is approved at most once. */
  function Approvals(trace: seq<Event>, runId: string, binding: Fingerprint): set<nat> {
    set a: nat | a < |trace| && trace[a].GateApproved? && trace[a].runId == runId && trace[a].binding == binding
  }

  ghost predicate RestsOn(trace: seq<Event>, k: nat, a: nat) {
    && k < |trace| && a < |trace| && trace[k].Invoked? && trace[a].GateApproved?
    && trace[k].gate == Some(trace[a].gateId) && trace[k].ticket.call.runId == trace[a].runId
  }

  lemma {:induction false} InjectionBound(A: set<nat>, B: set<nat>, R: (nat, nat) -> bool)
    requires forall k :: k in A ==> exists a :: a in B && R(k, a)
    requires forall j, k, a :: j in A && k in A && R(j, a) && R(k, a) ==> j == k
    ensures |A| <= |B|
    decreases |A|
  {
    if A != {} {
      var k :| k in A;
      var a :| a in B && R(k, a);
      forall j | j in A - {k} ensures exists b :: b in B - {a} && R(j, b) {
        var b :| b in B && R(j, b);
        assert b != a;
      }
      InjectionBound(A - {k}, B - {a}, R);
    }
  }

  lemma AtMostOnceIn(trace: seq<Event>, c: Call, binding: Fingerprint)
    requires TraceOk(trace)
    requires forall p :: p in trace && p.Invoked? && p.ticket.call == c ==> p.ticket.binding == binding
    ensures |ApprovedInvocations(trace, c)| <= |Approvals(trace, c.runId, binding)|
  {
    var A, B := ApprovedInvocations(trace, c), Approvals(trace, c.runId, binding);
    forall k | k in A ensures exists a :: a in B && RestsOn(trace, k, a) {
      var _, a, _ := GateStory(trace, k);
      assert RestsOn(trace, k, a);
    }
    forall j, k, a | j in A && k in A && RestsOn(trace, j, a) && RestsOn(trace, k, a) ensures j == k {
      SameGateSameInvocation(trace, j, k);
    }
    InjectionBound(A, B, (k: nat, a: nat) => RestsOn(trace, k, a));
  }

  /**
   At most once: in every interleaving, the invocations of one exact operation that needed approval are no more
   than the approvals given to gates bound to exactly that operation.
   */
  lemma AtMostOncePerApproval(key: Bytes, maxRuns: int, actions: seq<Action>, c: Call)
    requires RunsCreated(actions) < TWO_TO_64
    ensures var trace := TraceOf(key, maxRuns, actions);
            |ApprovedInvocations(trace, c)| <= |Approvals(trace, c.runId, BindingFor(key, c))|
  {
    ReachableTrace(key, maxRuns, actions);
    AtMostOnceIn(TraceOf(key, maxRuns, actions), c, BindingFor(key, c));
  }

  /** An approval counted for one operation is not counted for another: the binding names the operation. */
  lemma ApprovalsAreOfOneOperation(key: Bytes, maxRuns: int, actions: seq<Action>, j: nat, c: Call)
    requires RunsCreated(actions) < TWO_TO_64
    requires var trace := TraceOf(key, maxRuns, actions);
             j < |trace| && trace[j].Invoked? && trace[j].gate.Some?
    requires Representable(c) && RequestValid(c.request)
    ensures var trace := TraceOf(key, maxRuns, actions);
            trace[j].ticket.binding == BindingFor(key, c) <==> trace[j].ticket.call == c
  {
    ReachableTrace(key, maxRuns, actions);
    var ticket := TraceOf(key, maxRuns, actions)[j].ticket;
    assert GenuineTicket(key, ticket);
    if ticket.binding == BindingFor(key, c) { BindingInjective(key, ticket.call, key, c); }
  }

  lemma AuditStory(trace: seq<Event>, k: nat) returns (audited: nat, rechecked: nat)
    requires TraceOk(trace) && k < |trace| && trace[k].Invoked?
    ensures var e := trace[k];
            && audited < k && trace[audited] == Audited(Caller(e.thread), e.ticket.call.runId, e.entry)
            && AuditEntryFor(e.entry, e.ticket.audit)
            && rechecked < k && trace[rechecked] == Rechecked(e.thread, e.seen)
            && e.seen.id == e.ticket.call.runId && InScope(e.seen, e.ticket.call.request) && ActiveRun(e.seen)
            && (forall i :: 0 <= i < rechecked ==> trace[i] != RunEnded(e.ticket.call.runId))
            && (e.ticket.call.request.risk != RiskReadOnly ==> e.gate.Some?)
  {
    var e := trace[k];
    assert EventOk(trace[..k], e);
    audited := EventAt(trace, k, Audited(Caller(e.thread), e.ticket.call.runId, e.entry));
    rechecked := EventAt(trace, k, Rechecked(e.thread, e.seen));
    assert EventOk(trace[..rechecked], trace[rechecked]);
    forall i | 0 <= i < rechecked ensures trace[i] != RunEnded(e.seen.id) {
      assert trace[..rechecked][i] == trace[i];
    }
  }

  /**
   Every invocation has its own earlier audit entry on its run, and was preceded by a re-check by its thread that saw
   its run active at a moment when the run had not ended; anything but a read-only risk went through an approval gate.
   */
  lemma EveryInvocationIsAudited(key: Bytes, maxRuns: int, actions: seq<Action>, k: nat)
    returns (audited: nat, rechecked: nat)
    requires RunsCreated(actions) < TWO_TO_64
    requires k < |TraceOf(key, maxRuns, actions)| && TraceOf(key, maxRuns, actions)[k].Invoked?
    ensures var trace := TraceOf(key, maxRuns, actions);
            var (t, c, e, seen) := (trace[k].thread, trace[k].ticket.call, trace[k].entry, trace[k].seen);
            && audited < k && trace[audited] == Audited(Caller(t), c.runId, e)
            && AuditEntryFor(e, RouteMessage("Allowed", c.request))
            && rechecked < k && trace[rechecked] == Rechecked(t, seen)
            && seen.id == c.runId && InScope(seen, c.request) && ActiveRun(seen)
            && (forall i :: 0 <= i < rechecked ==> trace[i] != RunEnded(c.runId))
            && (c.request.risk != RiskReadOnly ==> trace[k].gate.Some?)
  {
    ReachableTrace(key, maxRuns, actions);
    assert GenuineTicket(key, TraceOf(key, maxRuns, actions)[k].ticket);
    audited, rechecked := AuditStory(TraceOf(key, maxRuns, actions), k);
  }

  /** A run id is created once, however many runs were evicted since; a thread invokes at most once. */
  lemma RunIdsAreNeverReused(key: Bytes, maxRuns: int, actions: seq<Action>, i: nat, j: nat)
    requires RunsCreated(actions) < TWO_TO_64
    requires i < j < |TraceOf(key, maxRuns, actions)|
    ensures var trace := TraceOf(key, maxRuns, actions);
            && (trace[i].RunCreated? && trace[j].RunCreated? ==> trace[i].runId != trace[j].runId)
            && (trace[i].Invoked? && trace[j].Invoked? ==> trace[i].thread != trace[j].thread)
  {
    ReachableTrace(key, maxRuns, actions);
    NothingHappensTwice(TraceOf(key, maxRuns, actions), i, j);
  }
}
