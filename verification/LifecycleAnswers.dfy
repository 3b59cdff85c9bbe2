/**
 What each locked section of a start and of a stop answers and leaves in the maps, read off the maps and the processes
 before it: who is told what, and which entries come and go.
 */
module LifecycleAnswers {
  import opened Wrappers
  import opened Lifecycle
  import Text

  predicate RunsAlive(table: Table, world: World, id: string) {
    id in table.running && Alive(world, table.running[id].handle)
  }

  /** A server that is starting, stopping, or running with a live process takes no further start. */
  predicate Occupied(table: Table, world: World, id: string) {
    id in table.starting || id in table.stopping || RunsAlive(table, world, id)
  }

  /** The caller is told what the server is doing, with the times and the handle on record. */
  predicate TellsWhy(table: Table, world: World, id: string, activity: Activity) {
    match activity
    case Idle => false
    case IsStarting(since) => id in table.starting && since == table.starting[id]
    case IsRunning(rec) => RunsAlive(table, world, id) && rec == table.running[id]
    case IsStopping(rec) => id in table.stopping && rec == table.stopping[id]
  }

  /** Every query of a server whose process has exited takes it off the running ones and notes when and why. */
  predicate Reaps(table: Table, world: World, id: string, now: Time, after: Table)
    requires HandlesOk(table, world)
  {
    if id in table.running && world[table.running[id].handle].exited.Some? then
      && after.running == table.running - {id}
      && after.exits == table.exits[id := ExitRec(now, world[table.running[id].handle].exited.value)]
    else after.running == table.running && after.exits == table.exits
  }

  lemma ReapedReaps(table: Table, world: World, id: string, now: Time)
    requires HandlesOk(table, world)
    ensures var after := Reaped(table, world, id, now);
            && after.starting == table.starting && after.stopping == table.stopping
            && Reaps(table, world, id, now, after)
            && (ActivityOf(after, id) == Idle <==> !Occupied(table, world, id))
            && (Occupied(table, world, id) ==> TellsWhy(table, world, id, ActivityOf(after, id)))
  {
  }

  /** Only caller t has moved on, to `p`. */
  predicate MovesOn(s: State, after: State, t: nat, p: Progress)
    requires t in s.callers
  {
    && after.callers == s.callers[t := Caller(s.callers[t].id, p)]
    && after.world == s.world && after.abandoned == s.abandoned && after.approvals == s.approvals
  }

  lemma LookReaps(s: State, id: string, now: Time)
    requires WellFormed(s)
    ensures var after := Apply(s, Look(id, now));
            && after == s.(table := after.table)
            && after.table.starting == s.table.starting && after.table.stopping == s.table.stopping
            && Reaps(s.table, s.world, id, now, after.table)
  {
    ReapedReaps(s.table, s.world, id, now);
  }

  /** The first section of a start: an occupied server is reported as it is, any other goes to the preflight. */
  lemma StartIsAnswered(s: State, t: nat, now: Time)
    requires WellFormed(s) && t in s.callers && s.callers[t].progress.StartCalled?
    ensures var after := Apply(s, Gate(t, now)); var id, p := s.callers[t].id, after.callers[t].progress;
            && MovesOn(s, after, t, p) && after.trace == s.trace
            && after.table.starting == s.table.starting && after.table.stopping == s.table.stopping
            && Reaps(s.table, s.world, id, now, after.table)
            && if Occupied(s.table, s.world, id) then
                 p.Finished? && p.outcome.AlreadyActive? && TellsWhy(s.table, s.world, id, p.outcome.activity)
               else p == Checking
  {
    CallerActionIsStep(s, Gate(t, now));
    ReapedReaps(s.table, s.world, s.callers[t].id, now);
  }

  predicate ApprovedNow(s: State, id: string, observed: Option<Fp>) {
    observed.Some? && Text.TrimSpace(id) in s.approvals && s.approvals[Text.TrimSpace(id)] == observed.value
  }

  /** The preflight reports exactly what it saw, and whether that is what was approved for this server. */
  lemma PreflightReports(s: State, t: nat, ready: bool, observed: Option<Fp>)
    requires WellFormed(s) && t in s.callers && s.callers[t].progress.Checking?
    ensures var after := Apply(s, Preflight(t, ready, observed));
            var id, p := s.callers[t].id, after.callers[t].progress;
            && MovesOn(s, after, t, p) && after.table == s.table
            && p.Checked? && p.report.fingerprint == observed && (p.report.ready <==> ready && observed.Some?)
            && (p.report.verdict == Approved <==> ApprovedNow(s, id, observed))
            && (p.report.verdict == ApprovalRequired <==> observed.None? || Text.TrimSpace(id) !in s.approvals)
            && after.trace == s.trace + [Preflighted(t, id, p.report)]
  {
    CallerActionIsStep(s, Preflight(t, ready, observed));
  }

  /** The second section of a start: the server is claimed exactly if it is free, ready and approved. */
  lemma ClaimIsAnswered(s: State, t: nat, now: Time)
    requires WellFormed(s) && t in s.callers && s.callers[t].progress.Checked?
    ensures var after := Apply(s, Claim(t, now)); var id, p := s.callers[t].id, after.callers[t].progress;
            var report := s.callers[t].progress.report;
            && MovesOn(s, after, t, p) && after.trace == s.trace
            && after.table.stopping == s.table.stopping && Reaps(s.table, s.world, id, now, after.table)
            && if Occupied(s.table, s.world, id) then
                 && p.Finished? && p.outcome.AlreadyActive? && TellsWhy(s.table, s.world, id, p.outcome.activity)
                 && after.table.starting == s.table.starting
               else if report.ready && report.verdict == Approved then
                 p == Claimed(report.fingerprint, now) && after.table.starting == s.table.starting[id := now]
               else p == Finished(Blocked) && after.table.starting == s.table.starting
  {
    CallerActionIsStep(s, Claim(t, now));
    ReapedReaps(s.table, s.world, s.callers[t].id, now);
  }

  /** The executable may be launched exactly if it is the one of the preflight and still the approved one. */
  lemma VerificationIsAnswered(s: State, t: nat, observed: Option<Fp>)
    requires WellFormed(s) && t in s.callers && s.callers[t].progress.Claimed?
    ensures var after := Apply(s, Verify(t, observed)); var c := s.callers[t];
            && after.table == s.table
            && if c.progress.expected.Some? && observed == c.progress.expected && ApprovedNow(s, c.id, observed) then
                 MovesOn(s, after, t, Verified(observed.value, c.progress.since))
               else MovesOn(s, after, t, Rejected)
  {
    CallerActionIsStep(s, Verify(t, observed));
  }

  /** The last section of a start gives the claim back; only a launched process goes on record, without an exit. */
  lemma LaunchIsRecorded(s: State, t: nat)
    requires WellFormed(s) && t in s.callers
    requires s.callers[t].progress.Rejected? || s.callers[t].progress.LaunchReturned?
    ensures var after := Apply(s, Commit(t)); var id, p := s.callers[t].id, s.callers[t].progress;
            && after.table.starting == s.table.starting - {id} && after.table.stopping == s.table.stopping
            && if p.LaunchReturned? && p.launched.Some? then
                 && MovesOn(s, after, t, Finished(StartedNow))
                 && after.table.running == s.table.running[id := Rec(p.launched.value, p.since)]
                 && after.table.exits == s.table.exits - {id}
               else
                 && MovesOn(s, after, t, Finished(if p.Rejected? then Blocked else LaunchFailed))
                 && after.table.running == s.table.running && after.table.exits == s.table.exits
  {
    CallerActionIsStep(s, Commit(t));
  }

  /** What a stop is told, by the maps: stopping before starting before not running. */
  lemma StopRefusalsTell(table: Table, world: World, id: string, now: Time)
    requires HandlesOk(table, world)
    ensures var r := BeginStopIn(table, world, id, now).1;
            && (r == StopInProgress <==> id in table.stopping)
            && (r == StillStarting <==> id !in table.stopping && id in table.starting)
            && (r == NotRunning <==>
                  id !in table.stopping && id !in table.starting && !RunsAlive(table, world, id))
  {
    ReapedReaps(table, world, id, now);
  }

  /** The first section of a stop takes exactly a live server that nobody is starting or stopping. */
  lemma StopIsAnswered(s: State, t: nat, now: Time)
    requires WellFormed(s) && t in s.callers && s.callers[t].progress.StopCalled?
    ensures var after := Apply(s, BeginStop(t, now)); var id := s.callers[t].id;
            && after.table.starting == s.table.starting && after.trace == s.trace
            && if RunsAlive(s.table, s.world, id) && id !in s.table.starting && id !in s.table.stopping then
                 var rec := s.table.running[id];
                 && MovesOn(s, after, t, Stopping(rec)) && after.table.running == s.table.running - {id}
                 && after.table.stopping == s.table.stopping[id := rec] && after.table.exits == s.table.exits
               else
                 && MovesOn(s, after, t, Finished(StopRefused)) && after.table.stopping == s.table.stopping
                 && Reaps(s.table, s.world, id, now, after.table)
  {
    CallerActionIsStep(s, BeginStop(t, now));
    ReapedReaps(s.table, s.world, s.callers[t].id, now);
  }

  /**
   The last section of a stop: a stopped server is in no map but the exits, a live one is running again, and one that
   exited while its stop failed is noted with its own reason.
   */
  lemma StopIsSettled(s: State, t: nat, now: Time)
    requires WellFormed(s) && t in s.callers && s.callers[t].progress.StopReturned?
    ensures var after := Apply(s, SettleStop(t, now)); var id, rec := s.callers[t].id, s.callers[t].progress.rec;
            && rec.handle < |s.world|
            && after.table.stopping == s.table.stopping - {id} && after.table.starting == s.table.starting
            && if s.callers[t].progress.ok then
                 && MovesOn(s, after, t, Finished(Stopped)) && after.table.running == s.table.running
                 && after.table.exits == s.table.exits[id := ExitRec(now, "stopped by user")]
               else
                 && MovesOn(s, after, t, Finished(StopFailed))
                 && (Alive(s.world, rec.handle) ==>
                       && after.table.running == s.table.running[id := rec] && after.table.exits == s.table.exits)
                 && (!Alive(s.world, rec.handle) ==>
                       && after.table.running == s.table.running
                       && after.table.exits
                          == s.table.exits[id := ExitRec(now, s.world[rec.handle].exited.value)])
  {
    CallerActionIsStep(s, SettleStop(t, now));
    assert StopHandleOk(s.callers[t], s.world);
  }
}
