/** Nothing is launched that was not vetted: an ordering property of the trace of every run. */
module LifecycleVetting {
  import opened Wrappers
  import opened Traces
  import opened Lifecycle
  import opened LifecycleTheorems
  import Text

  /** The approvals in force after a trace. */
  function ApprovalsOf(trace: seq<Event>): map<string, Fp> {
    if trace == [] then map[]
    else
      var before := ApprovalsOf(trace[..|trace| - 1]);
      match trace[|trace| - 1]
      case ApprovalSaved(server, fp) => before[server := fp]
      case _ => before
  }

  predicate ApprovedThen(before: seq<Event>, id: string, fp: Fp) {
    VerdictOf(ApprovalsOf(before), Text.TrimSpace(id), Some(fp)) == Approved
  }

  predicate PassedPreflight(e: Event, t: nat, id: string, fp: Option<Fp>) {
    e == Preflighted(t, id, Report(true, fp, Approved))
  }

  ghost predicate PreflightSeen(trace: seq<Event>, t: nat, id: string, report: Report) {
    exists i :: 0 <= i < |trace| && trace[i] == Preflighted(t, id, report)
  }

  /** A preflight that saw this approved executable, and after it a re-validation of the same one. */
  ghost predicate Vetted(trace: seq<Event>, t: nat, id: string, fp: Fp) {
    exists i, m :: 0 <= i < m < |trace| && PassedPreflight(trace[i], t, id, Some(fp))
                   && trace[m] == Revalidated(t, id, fp)
  }

  ghost predicate EventOk(before: seq<Event>, e: Event) {
    match e
    case Preflighted(_, id, report) =>
      report.verdict == VerdictOf(ApprovalsOf(before), Text.TrimSpace(id), report.fingerprint)
    case Revalidated(_, id, fp) => ApprovedThen(before, id, fp)
    case Launched(t, id, fp, _) => Vetted(before, t, id, fp)
    case _ => true
  }

  ghost predicate TraceOk(trace: seq<Event>) {
    Lawful(EventOk, trace)
  }

  ghost predicate CallerVetted(trace: seq<Event>, t: nat, c: Caller) {
    match c.progress
    case Checked(report) => PreflightSeen(trace, t, c.id, report)
    case Claimed(expected, _) => PreflightSeen(trace, t, c.id, Report(true, expected, Approved))
    case Verified(fp, _) => Vetted(trace, t, c.id, fp)
    case _ => true
  }

  ghost predicate CallersVetted(trace: seq<Event>, callers: map<nat, Caller>) {
    forall t :: t in callers ==> CallerVetted(trace, t, callers[t])
  }

  ghost predicate VetInv(s: State) {
    s.approvals == ApprovalsOf(s.trace) && TraceOk(s.trace) && CallersVetted(s.trace, s.callers)
  }

  lemma ApprovalsAfter(trace: seq<Event>, e: Event)
    ensures ApprovalsOf(trace + [e]) ==
            match e { case ApprovalSaved(server, fp) => ApprovalsOf(trace)[server := fp] case _ => ApprovalsOf(trace) }
  {
    var longer := trace + [e];
    assert longer[..|longer| - 1] == trace;
  }

  lemma AppendKeepsCaller(trace: seq<Event>, e: Event, t: nat, c: Caller)
    requires CallerVetted(trace, t, c)
    ensures CallerVetted(trace + [e], t, c)
  {
    var longer := trace + [e];
    match c.progress
    case Checked(report) =>
      var i :| 0 <= i < |trace| && trace[i] == Preflighted(t, c.id, report);
      assert longer[i] == Preflighted(t, c.id, report);
    case Claimed(expected, _) =>
      var i :| 0 <= i < |trace| && trace[i] == Preflighted(t, c.id, Report(true, expected, Approved));
      assert longer[i] == Preflighted(t, c.id, Report(true, expected, Approved));
    case Verified(fp, _) =>
      var i, m :| 0 <= i < m < |trace| && PassedPreflight(trace[i], t, c.id, Some(fp))
                  && trace[m] == Revalidated(t, c.id, fp);
      assert PassedPreflight(longer[i], t, c.id, Some(fp)) && longer[m] == Revalidated(t, c.id, fp);
    case _ =>
  }

  lemma AppendKeepsCallers(trace: seq<Event>, callers: map<nat, Caller>, e: Event, t: nat, c: Caller)
    requires CallersVetted(trace, callers) && CallerVetted(trace + [e], t, c)
    ensures CallersVetted(trace + [e], callers[t := c])
  {
    forall u | u in callers && u != t ensures CallerVetted(trace + [e], u, callers[u]) {
      AppendKeepsCaller(trace, e, u, callers[u]);
    }
  }

  /** One step with one event, by one caller. */
  lemma EventKeeps(trace: seq<Event>, callers: map<nat, Caller>, e: Event, t: nat, c: Caller)
    requires TraceOk(trace) && CallersVetted(trace, callers)
    requires EventOk(trace, e) && CallerVetted(trace + [e], t, c) && !e.ApprovalSaved?
    ensures TraceOk(trace + [e]) && CallersVetted(trace + [e], callers[t := c])
    ensures ApprovalsOf(trace + [e]) == ApprovalsOf(trace)
  {
    Extend(EventOk, trace, e);
    ApprovalsAfter(trace, e);
    AppendKeepsCallers(trace, callers, e, t, c);
  }

  lemma PreflightVets(s: State, t: nat, c: Caller, ready: bool, observed: Option<Fp>)
    requires VetInv(s) && t in s.callers && s.callers[t] == c
    ensures VetInv(PreflightStep(s, t, c, ready, observed))
  {
    var report := Report(ready && observed.Some?, observed, VerdictOf(s.approvals, Text.TrimSpace(c.id), observed));
    var e := Preflighted(t, c.id, report);
    assert (s.trace + [e])[|s.trace|] == e;
    EventKeeps(s.trace, s.callers, e, t, c.(progress := Checked(report)));
  }

  lemma VerifyVets(s: State, t: nat, c: Caller, expected: Option<Fp>, since: Time, observed: Option<Fp>)
    requires VetInv(s) && t in s.callers && s.callers[t] == c && c.progress == Claimed(expected, since)
    ensures VetInv(VerifyStep(s, t, c, expected, since, observed))
  {
    assert CallerVetted(s.trace, t, c);
    match VerifyLaunch(expected, observed, VerdictOf(s.approvals, Text.TrimSpace(c.id), observed))
    case Fails =>
    case Passes(fp) =>
      var e := Revalidated(t, c.id, fp);
      var longer := s.trace + [e];
      var i :| 0 <= i < |s.trace| && s.trace[i] == Preflighted(t, c.id, Report(true, expected, Approved));
      assert PassedPreflight(longer[i], t, c.id, Some(fp)) && longer[|s.trace|] == e;
      EventKeeps(s.trace, s.callers, e, t, c.(progress := Verified(fp, since)));
  }

  lemma SpawnVets(s: State, t: nat, c: Caller, fp: Fp, since: Time)
    requires VetInv(s) && t in s.callers && s.callers[t] == c && c.progress == Verified(fp, since)
    ensures VetInv(SpawnStep(s, t, c, fp, since))
  {
    assert CallerVetted(s.trace, t, c);
    EventKeeps(s.trace, s.callers, Launched(t, c.id, fp, |s.world|), t, c.(progress := Launching(since, |s.world|)));
  }

  lemma SettleVets(s: State, t: nat, c: Caller, rec: Rec, ok: bool, now: Time)
    requires VetInv(s) && t in s.callers && s.callers[t] == c && rec.handle < |s.world|
    ensures VetInv(SettleStep(s, t, c, rec, ok, now))
  {
    var c' := c.(progress := Finished(if ok then Stopped else StopFailed));
    if ok {
      EventKeeps(s.trace, s.callers, StopSucceeded(t, c.id, rec.handle), t, c');
    } else if Alive(s.world, rec.handle) {
      EventKeeps(s.trace, s.callers, StopFailedAlive(t, c.id, rec.handle), t, c');
    }
  }

  lemma ClaimVets(s: State, t: nat, c: Caller, now: Time)
    requires WellFormed(s) && VetInv(s) && t in s.callers && s.callers[t] == c && c.progress.Checked?
    ensures VetInv(ClaimStep(s, t, c, c.progress.report, now))
  {
    assert CallerVetted(s.trace, t, c);
  }

  /** The steps that show nothing to the observer and vet nothing. */
  lemma QuietStepsKeep(s: State, t: nat, a: Action)
    requires WellFormed(s) && VetInv(s) && t in s.callers
    requires a.Gate? || a.SpawnFails? || a.LauncherReturns? || a.Commit? || a.BeginStop? || a.HandleStops?
    ensures VetInv(CallerStep(s, t, a))
  {
    var after := CallerStep(s, t, a);
    assert after.trace == s.trace && after.approvals == s.approvals;
    assert after.callers == s.callers[t := after.callers[t]];
    assert CallerVetted(s.trace, t, s.callers[t]);
  }

  lemma SettleStopVets(s: State, t: nat, now: Time)
    requires WellFormed(s) && VetInv(s) && t in s.callers && s.callers[t].progress.StopReturned?
    ensures VetInv(CallerStep(s, t, SettleStop(t, now)))
  {
    var c := s.callers[t];
    assert StopHandleOk(c, s.world);
    SettleVets(s, t, c, c.progress.rec, c.progress.ok, now);
  }

  lemma CallerStepVets(s: State, t: nat, a: Action)
    requires WellFormed(s) && VetInv(s) && t in s.callers && ThreadOf(a) == Some(t)
    ensures VetInv(CallerStep(s, t, a))
  {
    var c := s.callers[t];
    if a.Preflight? {
      if c.progress.Checking? { PreflightVets(s, t, c, a.ready, a.observed); }
    } else if a.Claim? {
      if c.progress.Checked? { ClaimVets(s, t, c, a.at); }
    } else if a.Verify? {
      if c.progress.Claimed? { VerifyVets(s, t, c, c.progress.expected, c.progress.since, a.observed); }
    } else if a.Spawn? {
      if c.progress.Verified? { SpawnVets(s, t, c, c.progress.fp, c.progress.since); }
    } else if a.SettleStop? {
      if c.progress.StopReturned? { SettleStopVets(s, t, a.at); }
    } else {
      QuietStepsKeep(s, t, a);
    }
  }

  lemma ApprovalVets(s: State, server: string, fp: Fp)
    requires VetInv(s)
    ensures VetInv(Observed(s.(approvals := s.approvals[server := fp]), ApprovalSaved(server, fp)))
  {
    Extend(EventOk, s.trace, ApprovalSaved(server, fp));
    ApprovalsAfter(s.trace, ApprovalSaved(server, fp));
    forall u | u in s.callers ensures CallerVetted(s.trace + [ApprovalSaved(server, fp)], u, s.callers[u]) {
      AppendKeepsCaller(s.trace, ApprovalSaved(server, fp), u, s.callers[u]);
    }
  }

  lemma EnterVets(s: State, t: nat, id: string, p: Progress)
    requires VetInv(s) && (p == StartCalled || p == StopCalled)
    ensures VetInv(EnterStep(s, t, id, p))
  {
  }

  lemma StepVets(s: State, a: Action)
    requires WellFormed(s) && VetInv(s)
    ensures VetInv(Apply(s, a))
  {
    if a.Approve? {
      ApprovalVets(s, a.server, a.fp);
    } else if a.Start? {
      EnterVets(s, a.thread, a.id, StartCalled);
    } else if a.Stop? {
      EnterVets(s, a.thread, a.id, StopCalled);
    } else if !a.Look? && !a.Exit? && a.thread in s.callers {
      CallerStepVets(s, a.thread, a);
    }
  }

  lemma {:induction false} RunVets(s: State, actions: seq<Action>)
    requires WellFormed(s) && VetInv(s)
    ensures VetInv(After(s, actions))
    decreases |actions|
  {
    if actions != [] {
      StepVets(s, actions[0]);
      RunVets(Apply(s, actions[0]), actions[1..]);
    }
  }

  /**
   The launcher ran only on an executable whose fingerprint the same start had seen in its preflight, ready and
   approved at that moment, and had seen again, still approved, in the re-validation right before.
   */
  lemma LaunchesAreVetted(s: State, j: nat)
    requires Reachable(s) && j < |s.trace| && s.trace[j].Launched?
    ensures exists i, m :: 0 <= i < m < j
              && PassedPreflight(s.trace[i], s.trace[j].thread, s.trace[j].id, Some(s.trace[j].fp))
              && s.trace[m] == Revalidated(s.trace[j].thread, s.trace[j].id, s.trace[j].fp)
              && ApprovedThen(s.trace[..i], s.trace[j].id, s.trace[j].fp)
              && ApprovedThen(s.trace[..m], s.trace[j].id, s.trace[j].fp)
  {
    var known: set<string>, actions: seq<Action> :| s == After(Initial(known), actions);
    RunVets(Initial(known), actions);
    var before := s.trace[..j];
    var e := s.trace[j];
    assert EventOk(before, e);
    var i, m :| 0 <= i < m < |before| && PassedPreflight(before[i], e.thread, e.id, Some(e.fp))
                && before[m] == Revalidated(e.thread, e.id, e.fp);
    assert s.trace[i] == before[i] && s.trace[m] == before[m];
    assert EventOk(s.trace[..i], s.trace[i]) && EventOk(s.trace[..m], s.trace[m]);
  }
}
