/** Every recorded plan authorizes at most one mutating command, in every interleaving. */
module PlanGateSafety {
  import opened Wrappers
  import opened Traces
  import opened PlanGate

  // ---- The gate and its trace ----

  lemma PlanOfSnoc(trace: seq<Event>, e: Event, path: string)
    ensures PlanOf(trace + [e], path) ==
            if !Touches(e, path) then PlanOf(trace, path) else if e.Recorded? then Some(e.record) else None
  {
    assert (trace + [e])[..|trace + [e]| - 1] == trace;
  }

  lemma DropKeepsPlans(plans: Plans, trace: seq<Event>, e: Event, path: string)
    requires PlansOk(plans, trace) && !e.Recorded? && forall p :: Touches(e, p) <==> p == path
    ensures PlansOk(plans - {path}, trace + [e])
  {
    forall p ensures PlanOf(trace + [e], p) == if p in plans - {path} then Some((plans - {path})[p]) else None {
      PlanOfSnoc(trace, e, p);
    }
  }

  lemma RecordKeepsPlans(plans: Plans, trace: seq<Event>, path: string, record: PlanRecord)
    requires PlansOk(plans, trace)
    ensures PlansOk(plans[path := record], trace + [Recorded(path, record)])
  {
    var grown := plans[path := record];
    forall p ensures PlanOf(trace + [Recorded(path, record)], p) == if p in grown then Some(grown[p]) else None {
      PlanOfSnoc(trace, Recorded(path, record), p);
    }
  }

  lemma QuietKeepsPlans(plans: Plans, trace: seq<Event>, e: Event)
    requires PlansOk(plans, trace) && e.Ran?
    ensures PlansOk(plans, trace + [e])
  {
    forall p ensures PlanOf(trace + [e], p) == if p in plans then Some(plans[p]) else None {
      PlanOfSnoc(trace, e, p);
    }
  }

  /** The commands that change something and those that make a plan. */
  lemma MutationsAndPlans(command: string)
    ensures Mutates(command) <==> command in MUTATIONS
    ensures ProducesPlan(command) <==> command in PLANNING
  {
  }

  /** The compatibility of a plan and a command, tool by tool. */
  lemma AllowsExactlyTheServed(tool: string, planCommand: string, command: string)
    ensures AllowsMutation(tool, planCommand, command) <==> PlanServes(tool, planCommand, command)
  {
  }

  /** The gate says yes exactly when the path's plan stands in the trace and fits the command. */
  lemma ValidateExactlyWhen(plans: Plans, trace: seq<Event>, c: Command, now: Time)
    requires PlansOk(plans, trace)
    ensures Validate(plans, c, now).Ok?
       <==> exists i, record :: Standing(trace, i, c.path, record) && Fits(record, c, now)
  {
    assert PlanOf(trace, c.path) == if c.path in plans then Some(plans[c.path]) else None;
    if c.path in plans { AllowsExactlyTheServed(c.tool, plans[c.path].reference.planCommand, c.command); }
    if Validate(plans, c, now).Ok? {
      PlanOfIsStanding(trace, c.path, plans[c.path]);
      var i :| Standing(trace, i, c.path, plans[c.path]);
      assert Fits(plans[c.path], c, now);
    }
    if i, record :| Standing(trace, i, c.path, record) && Fits(record, c, now) {
      PlanOfIsStanding(trace, c.path, record);
    }
  }

  // ---- The runs ----

  lemma MoveKeepsRuns(gated: bool, trace: seq<Event>, runs: map<nat, Run>, t: nat, r: Run)
    requires RunsOk(gated, trace, runs) && RunOk(gated, trace, t, r)
    ensures RunsOk(gated, trace, runs[t := r])
  {
    var after := runs[t := r];
    forall i | 0 <= i < |trace| ensures !OfNoRun(trace[i], after) {
      assert !OfNoRun(trace[i], runs);
    }
  }

  lemma OthersSurvive(gated: bool, trace: seq<Event>, t: nat, r: Run, e: Event)
    requires RunOk(gated, trace, t, r) && ((e.Consumed? || e.Ran?) ==> e.thread != t)
    ensures RunOk(gated, trace + [e], t, r)
  {
    var longer := trace + [e];
    forall i | 0 <= i < |longer| && (longer[i].Consumed? || longer[i].Ran?) && longer[i].thread == t
      ensures i < |trace|
    {
    }
    if r.progress == Admitted && gated && Mutates(r.command.command) {
      var i :| 0 <= i < |trace| && ConsumedBy(trace[i], t, r.command);
      assert ConsumedBy(longer[i], t, r.command);
    }
  }

  lemma AppendKeepsRuns(gated: bool, trace: seq<Event>, runs: map<nat, Run>, t: nat, r: Run, e: Event)
    requires RunsOk(gated, trace, runs) && RunOk(gated, trace + [e], t, r)
    requires (e.Consumed? || e.Ran?) ==> e.thread == t
    ensures RunsOk(gated, trace + [e], runs[t := r])
  {
    var longer, after := trace + [e], runs[t := r];
    forall u | u in runs && u != t ensures RunOk(gated, longer, u, runs[u]) {
      OthersSurvive(gated, trace, u, runs[u], e);
    }
    forall i | 0 <= i < |longer| ensures !OfNoRun(longer[i], after) {
      if i < |trace| { assert !OfNoRun(trace[i], runs); }
    }
  }

  lemma AppendKeepsOrder(gated: bool, trace: seq<Event>, e: Event)
    requires OrderOk(gated, trace)
    requires e.Consumed? ==> forall i :: 0 <= i < |trace| ==> !(trace[i].Consumed? && trace[i].thread == e.thread)
    requires e.Ran? ==> forall i :: 0 <= i < |trace| ==> !(trace[i].Ran? && trace[i].thread == e.thread)
    requires e.Ran? && gated && Mutates(e.command.command) ==>
               exists i :: 0 <= i < |trace| && ConsumedBy(trace[i], e.thread, e.command)
    ensures OrderOk(gated, trace + [e])
  {
    var longer := trace + [e];
    forall j | 0 <= j < |longer| && longer[j].Ran? && gated && Mutates(longer[j].command.command)
      ensures exists i :: 0 <= i < j && ConsumedBy(longer[i], longer[j].thread, longer[j].command)
    {
      if j < |trace| {
        var i :| 0 <= i < j && ConsumedBy(trace[i], trace[j].thread, trace[j].command);
        assert ConsumedBy(longer[i], longer[j].thread, longer[j].command);
      } else {
        var i :| 0 <= i < |trace| && ConsumedBy(trace[i], e.thread, e.command);
        assert ConsumedBy(longer[i], longer[j].thread, longer[j].command);
      }
    }
  }

  // ---- The steps ----

  /** A step that shows nothing. */
  lemma MoveKeeps(s: State, t: nat, p: Progress)
    requires Inv(s) && t in s.runs && RunOk(s.gated, s.trace, t, s.runs[t].(progress := p))
    ensures Inv(Move(s, t, p))
  {
    MoveKeepsRuns(s.gated, s.trace, s.runs, t, s.runs[t].(progress := p));
  }

  lemma DropKeeps(s: State, path: string)
    requires Inv(s)
    ensures Inv(Dropped(s, path))
  {
    var e := Invalidated(path);
    DropKeepsPlans(s.plans, s.trace, e, path);
    Extend(EventOk, s.trace, e);
    AppendKeepsOrder(s.gated, s.trace, e);
    forall t | t in s.runs ensures RunOk(s.gated, s.trace + [e], t, s.runs[t]) {
      OthersSurvive(s.gated, s.trace, t, s.runs[t], e);
    }
    forall i | 0 <= i < |s.trace + [e]| ensures !OfNoRun((s.trace + [e])[i], s.runs) {
      if i < |s.trace| { assert !OfNoRun(s.trace[i], s.runs); }
    }
  }

  lemma StartKeeps(s: State, t: nat)
    requires Inv(s) && t in s.runs && s.runs[t].progress == Cleared
    ensures Inv(StartStep(s, t))
  {
    var c := s.runs[t].command;
    if ProducesPlan(c.command) { DropKeeps(s, c.path); }
    var base := if ProducesPlan(c.command) then Dropped(s, c.path) else s;
    assert RunOk(base.gated, base.trace, t, base.runs[t]);
    MoveKeeps(base, t, Started);
  }

  lemma ConsumeKeeps(s: State, t: nat, now: Time)
    requires Inv(s) && t in s.runs && s.runs[t].progress == Started && Validate(s.plans, s.runs[t].command, now).Ok?
    ensures var c := s.runs[t].command;
            Inv(Move(s.(plans := s.plans - {c.path}, trace := s.trace + [Consumed(t, c, now)]), t, Admitted))
  {
    var c := s.runs[t].command;
    var e := Consumed(t, c, now);
    var r := Run(c, Admitted);
    assert RunOk(s.gated, s.trace, t, s.runs[t]);
    ValidateExactlyWhen(s.plans, s.trace, c, now);
    DropKeepsPlans(s.plans, s.trace, e, c.path);
    Extend(EventOk, s.trace, e);
    AppendKeepsOrder(s.gated, s.trace, e);
    assert ConsumedBy((s.trace + [e])[|s.trace|], t, c);
    assert RunOk(s.gated, s.trace + [e], t, r);
    AppendKeepsRuns(s.gated, s.trace, s.runs, t, r, e);
  }

  lemma AdmitKeeps(s: State, t: nat, now: Time)
    requires Inv(s) && t in s.runs && s.runs[t].progress == Started
    ensures Inv(AdmitStep(s, t, now))
  {
    assert RunOk(s.gated, s.trace, t, s.runs[t]);
    var c := s.runs[t].command;
    if !RequiresApproval(s, c) {
      MoveKeeps(s, t, Admitted);
    } else if Validate(s.plans, c, now).Ok? {
      ConsumeKeeps(s, t, now);
    } else {
      MoveKeeps(s, t, Finished);
    }
  }

  lemma ExecuteKeeps(s: State, t: nat)
    requires Inv(s) && t in s.runs && s.runs[t].progress == Admitted
    ensures Inv(Move(s, t, Executing).(trace := s.trace + [Ran(t, s.runs[t].command)]))
  {
    var e := Ran(t, s.runs[t].command);
    var r := s.runs[t].(progress := Executing);
    assert RunOk(s.gated, s.trace, t, s.runs[t]);
    QuietKeepsPlans(s.plans, s.trace, e);
    Extend(EventOk, s.trace, e);
    AppendKeepsOrder(s.gated, s.trace, e);
    AppendKeepsRuns(s.gated, s.trace, s.runs, t, r, e);
  }

  lemma FinishKeeps(s: State, t: nat, succeeds: bool, hash: string, now: Time)
    requires Inv(s) && t in s.runs && s.runs[t].progress == Executing
    ensures Inv(FinishStep(s, t, succeeds, hash, now))
  {
    var c := s.runs[t].command;
    if succeeds && ProducesPlan(c.command) {
      var record := PlanRecord(PlanReference(hash, c.tool, c.env, c.connectionId, c.command), now);
      var e := Recorded(c.path, record);
      RecordKeepsPlans(s.plans, s.trace, c.path, record);
      Extend(EventOk, s.trace, e);
      AppendKeepsOrder(s.gated, s.trace, e);
      AppendKeepsRuns(s.gated, s.trace, s.runs, t, Run(c, Finished), e);
    } else {
      MoveKeeps(s, t, Finished);
    }
  }

  lemma RequestKeeps(s: State, t: nat, c: Command)
    requires Inv(s) && t !in s.runs
    ensures Inv(s.(runs := s.runs[t := Run(c, Requested)]))
  {
    forall i | 0 <= i < |s.trace| ensures !((s.trace[i].Consumed? || s.trace[i].Ran?) && s.trace[i].thread == t) {
      assert !OfNoRun(s.trace[i], s.runs);
    }
    MoveKeepsRuns(s.gated, s.trace, s.runs, t, Run(c, Requested));
  }

  lemma StepKeeps(s: State, a: Action)
    requires Inv(s)
    ensures Inv(Apply(s, a))
  {
    match a
    case Request(t, c) => if t !in s.runs { RequestKeeps(s, t, c); }
    case Check(t, now, proceeds) =>
      if t in s.runs && s.runs[t].progress == Requested {
        assert RunOk(s.gated, s.trace, t, s.runs[t]);
        MoveKeeps(s, t, Cleared);
        MoveKeeps(s, t, Finished);
      }
    case Start(t) => if t in s.runs && s.runs[t].progress == Cleared { StartKeeps(s, t); }
    case Admit(t, now) => if t in s.runs && s.runs[t].progress == Started { AdmitKeeps(s, t, now); }
    case Execute(t) => if t in s.runs && s.runs[t].progress == Admitted { ExecuteKeeps(s, t); }
    case Finish(t, succeeds, hash, now) =>
      if t in s.runs && s.runs[t].progress == Executing { FinishKeeps(s, t, succeeds, hash, now); }
    case ChangeFile(path) => DropKeeps(s, path);
  }

  lemma {:induction false} RunKeeps(gated: bool, actions: seq<Action>)
    ensures Inv(After(Initial(gated), actions))
  {
    if actions != [] {
      RunKeeps(gated, actions[..|actions| - 1]);
      StepKeeps(After(Initial(gated), actions[..|actions| - 1]), actions[|actions| - 1]);
    }
  }

  // ---- The theorems ----

  ghost predicate Reachable(s: State) {
    exists gated: bool, actions: seq<Action> :: s == After(Initial(gated), actions)
  }

  lemma ReachableInv(s: State)
    requires Reachable(s)
    ensures Inv(s)
  {
    var gated: bool, actions: seq<Action> :| s == After(Initial(gated), actions);
    RunKeeps(gated, actions);
  }

  /**
   In any reachable state a consumption succeeds exactly for the latest record of its directory that nothing has
   replaced, invalidated or consumed, with the same tool, environment and connection, a plan command that allows the
   mutation, the very same hash, and less than an hour old.
   */
  lemma ConsumeSucceedsExactlyWhen(s: State, c: Command, now: Time)
    requires Reachable(s)
    ensures Consume(s.plans, c, now).1.Ok? <==>
              exists i, record :: Standing(s.trace, i, c.path, record) && Fits(record, c, now)
  {
    ReachableInv(s);
    ValidateExactlyWhen(s.plans, s.trace, c, now);
  }

  /** The record a consumption took; it stood just before. */
  ghost predicate Backs(trace: seq<Event>, i: int, j: int) {
    && 0 <= i < j < |trace| && trace[j].Consumed?
    && trace[i].Recorded? && trace[i].path == trace[j].command.path
    && Fits(trace[i].record, trace[j].command, trace[j].at)
    && forall m :: i < m < j ==> !Touches(trace[m], trace[i].path)
  }

  lemma ConsumptionIsBacked(s: State, j: nat) returns (i: nat)
    requires Reachable(s) && j < |s.trace| && s.trace[j].Consumed?
    ensures Backs(s.trace, i, j)
  {
    ReachableInv(s);
    var before := s.trace[..j];
    assert EventOk(before, s.trace[j]);
    var k, record :| Standing(before, k, s.trace[j].command.path, record)
                     && Fits(record, s.trace[j].command, s.trace[j].at);
    i := k;
    assert s.trace[i] == before[i];
    forall m | i < m < j ensures !Touches(s.trace[m], s.trace[i].path) {
      assert before[m] == s.trace[m];
    }
  }

  /** No record backs two consumptions. */
  lemma RecordsAreConsumedOnce(s: State, i: nat, j: nat, k: nat)
    requires Reachable(s) && Backs(s.trace, i, j) && Backs(s.trace, i, k)
    ensures j == k
  {
    assert Touches(s.trace[j], s.trace[i].path) && Touches(s.trace[k], s.trace[i].path);
  }

  /**
   Each recorded plan authorizes at most one mutation: two executions of gated mutating commands are backed by two
   different records, each consumed by the very run and command that then executed.
   */
  lemma EachPlanAuthorizesOneMutation(s: State, j: nat, k: nat) returns (cj: nat, rj: nat, ck: nat, rk: nat)
    requires Reachable(s) && s.gated && j < k < |s.trace| && s.trace[j].Ran? && s.trace[k].Ran?
    requires s.trace[j].command.command in MUTATIONS && s.trace[k].command.command in MUTATIONS
    ensures cj < j && ck < k && Backs(s.trace, rj, cj) && Backs(s.trace, rk, ck) && rj != rk
    ensures ConsumedBy(s.trace[cj], s.trace[j].thread, s.trace[j].command)
    ensures ConsumedBy(s.trace[ck], s.trace[k].thread, s.trace[k].command)
  {
    ReachableInv(s);
    MutationsAndPlans(s.trace[j].command.command);
    MutationsAndPlans(s.trace[k].command.command);
    var a :| 0 <= a < j && ConsumedBy(s.trace[a], s.trace[j].thread, s.trace[j].command);
    var b :| 0 <= b < k && ConsumedBy(s.trace[b], s.trace[k].thread, s.trace[k].command);
    cj, ck := a, b;
    rj := ConsumptionIsBacked(s, cj);
    rk := ConsumptionIsBacked(s, ck);
    if rj == rk { RecordsAreConsumedOnce(s, rj, cj, ck); }
  }

  /**
   Whatever the tool, a plan is only ever good for a mutation if its command produces plans; known tools name theirs.
   */
  lemma OnlyPlansAllowMutations(tool: string, planCommand: string, command: string)
    requires AllowsMutation(tool, planCommand, command)
    ensures planCommand in PLANNING
    ensures tool in KNOWN_TOOLS ==> command in MUTATIONS
  {
    AllowsExactlyTheServed(tool, planCommand, command);
  }
}
