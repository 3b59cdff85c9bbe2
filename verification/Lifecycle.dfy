/**
 Starting, stopping and reaping external server processes. Launching and stopping happen outside the lock, so each
 Start is five steps and each Stop three, and between them any other caller may act and any process may exit.
 */
module Lifecycle {
  import opened Wrappers
  import Text

  type Time = int

  datatype Fp = Fp(algorithm: string, digest: string)

  datatype Verdict = Approved | ApprovalRequired | ExecutableChanged

  /** What the preflight found: readiness, the executable it saw, and whether that executable is approved. */
  datatype Report = Report(ready: bool, fingerprint: Option<Fp>, verdict: Verdict)

  datatype Rec = Rec(handle: nat, startedAt: Time)

  datatype ExitRec = ExitRec(at: Time, reason: string)

  /** The maps behind the lifecycle lock, keyed by the id as the caller spelled it. */
  datatype Table = Table(
    starting: map<string, Time>, running: map<string, Rec>, stopping: map<string, Rec>, exits: map<string, ExitRec>)

  /** A process some launch made; the index in the world is its handle. */
  datatype Process = Process(key: string, exited: Option<string>)

  type World = seq<Process>

  predicate Alive(world: World, h: nat) { h < |world| && world[h].exited.None? }

  const EMPTY := Table(map[], map[], map[], map[])

  predicate HandlesOk(table: Table, world: World) {
    && (forall id :: id in table.running ==> table.running[id].handle < |world|)
    && (forall id :: id in table.stopping ==> table.stopping[id].handle < |world|)
  }

  /** Move a server whose process has exited from running to exits. */
  function Reaped(table: Table, world: World, id: string, now: Time): Table
    requires HandlesOk(table, world)
  {
    if id in table.running && world[table.running[id].handle].exited.Some? then
      table.(running := table.running - {id},
             exits := table.exits[id := ExitRec(now, world[table.running[id].handle].exited.value)])
    else table
  }

  datatype Activity = Idle | IsStarting(since: Time) | IsRunning(rec: Rec) | IsStopping(rec: Rec)

  function ActivityOf(table: Table, id: string): Activity {
    if id in table.starting then IsStarting(table.starting[id])
    else if id in table.running then IsRunning(table.running[id])
    else if id in table.stopping then IsStopping(table.stopping[id])
    else Idle
  }

  datatype ClaimResult = Busy(activity: Activity) | NotReady | NotApproved | Granted

  /** On a reaped table, only an idle, ready and approved server is claimed. */
  function ClaimReaped(table: Table, id: string, report: Report, now: Time): (r: (Table, ClaimResult))
    ensures r.1.Busy? ==> r.1.activity != Idle
  {
    if ActivityOf(table, id) != Idle then (table, Busy(ActivityOf(table, id)))
    else if !report.ready then (table, NotReady)
    else if report.verdict != Approved then (table, NotApproved)
    else (table.(starting := table.starting[id := now]), Granted)
  }

  /** The second locked section of a start. */
  function ClaimIn(table: Table, world: World, id: string, report: Report, now: Time): (r: (Table, ClaimResult))
    requires HandlesOk(table, world)
    ensures r.1.Busy? ==> r.1.activity != Idle
  {
    ClaimReaped(Reaped(table, world, id, now), id, report, now)
  }

  datatype Revalidation = Fails | Passes(fp: Fp)

  /** The executable is looked at again outside the lock: same fingerprint as in the preflight, still approved. */
  function VerifyLaunch(expected: Option<Fp>, observed: Option<Fp>, verdict: Verdict): Revalidation {
    if expected.None? || observed.None? || expected != observed || verdict != Approved then Fails
    else Passes(observed.value)
  }

  function VerdictOf(approvals: map<string, Fp>, server: string, observed: Option<Fp>): Verdict {
    if server !in approvals || observed.None? then ApprovalRequired
    else if approvals[server] != observed.value then ExecutableChanged
    else Approved
  }

  /** The last locked section of a start: the claim goes, and a launched process is on record. */
  function CommitIn(table: Table, id: string, launched: Option<Rec>): Table {
    var released := table.(starting := table.starting - {id});
    match launched
    case None => released
    case Some(rec) => released.(running := released.running[id := rec], exits := released.exits - {id})
  }

  datatype StopResult = StopInProgress | StillStarting | NotRunning | Stops(rec: Rec)

  /** The first locked section of a stop: the record moves from running to stopping. */
  function BeginStopIn(table: Table, world: World, id: string, now: Time): (Table, StopResult)
    requires HandlesOk(table, world)
  {
    var reaped := Reaped(table, world, id, now);
    if id in reaped.stopping then (reaped, StopInProgress)
    else if id in reaped.starting then (reaped, StillStarting)
    else if id !in reaped.running then (reaped, NotRunning)
    else
      var rec := reaped.running[id];
      (reaped.(running := reaped.running - {id}, stopping := reaped.stopping[id := rec]), Stops(rec))
  }

  /** The last locked section of a stop. After a failure the record goes back, unless the process has exited by now. */
  function SettleStopIn(table: Table, world: World, id: string, rec: Rec, ok: bool, now: Time): Table
    requires rec.handle < |world|
  {
    var released := table.(stopping := table.stopping - {id});
    if ok then released.(exits := released.exits[id := ExitRec(now, "stopped by user")])
    else if world[rec.handle].exited.Some? then
      released.(exits := released.exits[id := ExitRec(now, world[rec.handle].exited.value)])
    else released.(running := released.running[id := rec])
  }

  // ---- The callers ----

  datatype Outcome =
    | UnknownServer | AlreadyActive(activity: Activity) | Blocked | LaunchFailed | StartedNow
    | Stopped | StopRefused | StopFailed

  datatype Progress =
    | StartCalled
    | Checking
    | Checked(report: Report)
    | Claimed(expected: Option<Fp>, since: Time)
    | Verified(fp: Fp, since: Time)
    | Rejected
    | Launching(since: Time, handle: nat)             // the process exists, the launcher has not returned yet
    | LaunchReturned(since: Time, launched: Option<nat>)
    | StopCalled
    | Stopping(rec: Rec)
    | StopReturned(rec: Rec, ok: bool)
    | Finished(outcome: Outcome)

  datatype Caller = Caller(id: string, progress: Progress)

  datatype Event =
    | ApprovalSaved(server: string, fp: Fp)
    | Preflighted(thread: nat, id: string, report: Report)
    | Revalidated(thread: nat, id: string, fp: Fp)
    | Launched(thread: nat, id: string, fp: Fp, handle: nat)
    | StopSucceeded(thread: nat, id: string, handle: nat)
    | StopFailedAlive(thread: nat, id: string, handle: nat)

  /** `abandoned` collects the processes that were still alive when their launcher reported a failure. */
  datatype State = State(
    known: set<string>, approvals: map<string, Fp>, table: Table, world: World,
    abandoned: set<nat>, callers: map<nat, Caller>, trace: seq<Event>)

  datatype Action =
    | Approve(server: string, fp: Fp)
    | Start(thread: nat, id: string)
    | Gate(thread: nat, at: Time)
    | Preflight(thread: nat, ready: bool, observed: Option<Fp>)
    | Claim(thread: nat, at: Time)
    | Verify(thread: nat, observed: Option<Fp>)
    | Spawn(thread: nat)
    | SpawnFails(thread: nat)
    | LauncherReturns(thread: nat, ok: bool)
    | Commit(thread: nat)
    | Stop(thread: nat, id: string)
    | BeginStop(thread: nat, at: Time)
    | HandleStops(thread: nat, ok: bool)              // a stop succeeds only by seeing the process exit
    | SettleStop(thread: nat, at: Time)
    | Look(id: string, at: Time)                      // any status query
    | Exit(handle: nat, reason: string)

  function To(s: State, t: nat, c: Caller, p: Progress): State {
    s.(callers := s.callers[t := c.(progress := p)])
  }

  function Observed(s: State, e: Event): State {
    s.(trace := s.trace + [e])
  }

  function EnterStep(s: State, t: nat, id: string, p: Progress): State {
    if t in s.callers then s
    else To(s, t, Caller(id, p), if Text.TrimSpace(id) in s.known then p else Finished(UnknownServer))
  }

  function GateStep(s: State, t: nat, c: Caller, now: Time): State
    requires HandlesOk(s.table, s.world)
  {
    var table := Reaped(s.table, s.world, c.id, now);
    var activity := ActivityOf(table, c.id);
    To(s.(table := table), t, c, if activity == Idle then Checking else Finished(AlreadyActive(activity)))
  }

  function PreflightStep(s: State, t: nat, c: Caller, ready: bool, observed: Option<Fp>): State {
    var report := Report(ready && observed.Some?, observed, VerdictOf(s.approvals, Text.TrimSpace(c.id), observed));
    Observed(To(s, t, c, Checked(report)), Preflighted(t, c.id, report))
  }

  /** Where a claim leaves its caller. */
  function ClaimProgress(report: Report, r: ClaimResult, now: Time): Progress {
    match r
    case Busy(activity) => Finished(AlreadyActive(activity))
    case NotReady => Finished(Blocked)
    case NotApproved => Finished(Blocked)
    case Granted => Claimed(report.fingerprint, now)
  }

  function ClaimStep(s: State, t: nat, c: Caller, report: Report, now: Time): State
    requires HandlesOk(s.table, s.world)
  {
    var (table, r) := ClaimIn(s.table, s.world, c.id, report, now);
    To(s.(table := table), t, c, ClaimProgress(report, r, now))
  }

  function VerifyStep(s: State, t: nat, c: Caller, expected: Option<Fp>, since: Time, observed: Option<Fp>): State {
    match VerifyLaunch(expected, observed, VerdictOf(s.approvals, Text.TrimSpace(c.id), observed))
    case Fails => To(s, t, c, Rejected)
    case Passes(fp) => Observed(To(s, t, c, Verified(fp, since)), Revalidated(t, c.id, fp))
  }

  function SpawnStep(s: State, t: nat, c: Caller, fp: Fp, since: Time): State {
    Observed(To(s.(world := s.world + [Process(c.id, None)]), t, c, Launching(since, |s.world|)),
             Launched(t, c.id, fp, |s.world|))
  }

  function ReturnStep(s: State, t: nat, c: Caller, since: Time, h: nat, ok: bool): State {
    if ok then To(s, t, c, LaunchReturned(since, Some(h)))
    else To(s.(abandoned := if Alive(s.world, h) then s.abandoned + {h} else s.abandoned), t, c,
            LaunchReturned(since, None))
  }

  function CommitStep(s: State, t: nat, c: Caller): State {
    match c.progress
    case LaunchReturned(since, Some(h)) =>
      To(s.(table := CommitIn(s.table, c.id, Some(Rec(h, since)))), t, c, Finished(StartedNow))
    case LaunchReturned(_, None) => To(s.(table := CommitIn(s.table, c.id, None)), t, c, Finished(LaunchFailed))
    case Rejected => To(s.(table := CommitIn(s.table, c.id, None)), t, c, Finished(Blocked))
    case _ => s
  }

  function BeginStopStep(s: State, t: nat, c: Caller, now: Time): State
    requires HandlesOk(s.table, s.world)
  {
    var (table, r) := BeginStopIn(s.table, s.world, c.id, now);
    To(s.(table := table), t, c, match r case Stops(rec) => Stopping(rec) case _ => Finished(StopRefused))
  }

  function HandleStopStep(s: State, t: nat, c: Caller, rec: Rec, ok: bool): State {
    if ok && Alive(s.world, rec.handle) then s else To(s, t, c, StopReturned(rec, ok))
  }

  function SettleStep(s: State, t: nat, c: Caller, rec: Rec, ok: bool, now: Time): State
    requires rec.handle < |s.world|
  {
    var settled := To(s.(table := SettleStopIn(s.table, s.world, c.id, rec, ok, now)), t, c,
                      Finished(if ok then Stopped else StopFailed));
    if ok then Observed(settled, StopSucceeded(t, c.id, rec.handle))
    else if Alive(s.world, rec.handle) then Observed(settled, StopFailedAlive(t, c.id, rec.handle))
    else settled
  }

  predicate StopHandleOk(c: Caller, world: World) {
    match c.progress
    case Stopping(rec) => rec.handle < |world|
    case StopReturned(rec, _) => rec.handle < |world|
    case _ => true
  }

  predicate LaunchHandleOk(c: Caller, world: World) {
    match c.progress
    case Launching(_, h) => h < |world|
    case LaunchReturned(_, Some(h)) => h < |world|
    case _ => true
  }

  /** Every handle the state holds belongs to a process of its world. */
  predicate WellFormed(s: State) {
    HandlesOk(s.table, s.world)
    && forall t :: t in s.callers ==> StopHandleOk(s.callers[t], s.world) && LaunchHandleOk(s.callers[t], s.world)
  }

  function CallerStep(s: State, t: nat, a: Action): State
    requires WellFormed(s) && t in s.callers
  {
    var c := s.callers[t];
    match a
    case Gate(_, now) => if c.progress.StartCalled? then GateStep(s, t, c, now) else s
    case Preflight(_, ready, observed) => if c.progress.Checking? then PreflightStep(s, t, c, ready, observed) else s
    case Claim(_, now) => if c.progress.Checked? then ClaimStep(s, t, c, c.progress.report, now) else s
    case Verify(_, observed) =>
      if c.progress.Claimed? then VerifyStep(s, t, c, c.progress.expected, c.progress.since, observed) else s
    case Spawn(_) => if c.progress.Verified? then SpawnStep(s, t, c, c.progress.fp, c.progress.since) else s
    case SpawnFails(_) => if c.progress.Verified? then To(s, t, c, LaunchReturned(c.progress.since, None)) else s
    case LauncherReturns(_, ok) =>
      if c.progress.Launching? then ReturnStep(s, t, c, c.progress.since, c.progress.handle, ok) else s
    case Commit(_) => CommitStep(s, t, c)
    case BeginStop(_, now) => if c.progress.StopCalled? then BeginStopStep(s, t, c, now) else s
    case HandleStops(_, ok) => if c.progress.Stopping? then HandleStopStep(s, t, c, c.progress.rec, ok) else s
    case SettleStop(_, now) =>
      if c.progress.StopReturned? then
        assert StopHandleOk(c, s.world);
        SettleStep(s, t, c, c.progress.rec, c.progress.ok, now)
      else s
    case _ => s
  }

  function ThreadOf(a: Action): Option<nat> {
    match a
    case Gate(t, _) => Some(t)
    case Preflight(t, _, _) => Some(t)
    case Claim(t, _) => Some(t)
    case Verify(t, _) => Some(t)
    case Spawn(t) => Some(t)
    case SpawnFails(t) => Some(t)
    case LauncherReturns(t, _) => Some(t)
    case Commit(t) => Some(t)
    case BeginStop(t, _) => Some(t)
    case HandleStops(t, _) => Some(t)
    case SettleStop(t, _) => Some(t)
    case _ => None
  }

  lemma SpawnWellFormed(s: State, t: nat, c: Caller, fp: Fp, since: Time)
    requires WellFormed(s)
    ensures WellFormed(SpawnStep(s, t, c, fp, since))
  {
    var world := s.world + [Process(c.id, None)];
    forall u | u in s.callers ensures StopHandleOk(s.callers[u], world) && LaunchHandleOk(s.callers[u], world) {
      assert StopHandleOk(s.callers[u], s.world) && LaunchHandleOk(s.callers[u], s.world);
    }
  }

  lemma CommitWellFormed(s: State, t: nat, c: Caller)
    requires WellFormed(s) && LaunchHandleOk(c, s.world)
    ensures WellFormed(CommitStep(s, t, c))
  {
  }

  lemma TableStepWellFormed(s: State, table: Table, t: nat, c: Caller, p: Progress)
    requires WellFormed(s) && HandlesOk(table, s.world)
    requires StopHandleOk(c.(progress := p), s.world) && LaunchHandleOk(c.(progress := p), s.world)
    ensures WellFormed(To(s.(table := table), t, c, p))
  {
  }

  lemma BeginStopWellFormed(s: State, t: nat, c: Caller, now: Time)
    requires WellFormed(s)
    ensures WellFormed(BeginStopStep(s, t, c, now))
  {
    var (table, r) := BeginStopIn(s.table, s.world, c.id, now);
    TableStepWellFormed(s, table, t, c, match r case Stops(rec) => Stopping(rec) case _ => Finished(StopRefused));
  }

  lemma SettleWellFormed(s: State, t: nat, c: Caller, rec: Rec, ok: bool, now: Time)
    requires WellFormed(s) && rec.handle < |s.world|
    ensures WellFormed(SettleStep(s, t, c, rec, ok, now))
  {
    TableStepWellFormed(s, SettleStopIn(s.table, s.world, c.id, rec, ok, now), t, c,
                        Finished(if ok then Stopped else StopFailed));
  }

  lemma ClaimWellFormed(s: State, t: nat, c: Caller, report: Report, now: Time)
    requires WellFormed(s)
    ensures WellFormed(ClaimStep(s, t, c, report, now))
  {
  }

  /** No step forgets a process, so handles stay meaningful. */
  lemma CallerStepWellFormed(s: State, t: nat, a: Action)
    requires WellFormed(s) && t in s.callers
    ensures WellFormed(CallerStep(s, t, a))
  {
    var c := s.callers[t];
    assert StopHandleOk(c, s.world) && LaunchHandleOk(c, s.world);
    if a.Spawn? {
      if c.progress.Verified? { SpawnWellFormed(s, t, c, c.progress.fp, c.progress.since); }
    } else if a.Claim? {
      if c.progress.Checked? { ClaimWellFormed(s, t, c, c.progress.report, a.at); }
    } else if a.Commit? {
      CommitWellFormed(s, t, c);
    } else if a.BeginStop? {
      BeginStopWellFormed(s, t, c, a.at);
    } else if a.SettleStop? {
      if c.progress.StopReturned? { SettleWellFormed(s, t, c, c.progress.rec, c.progress.ok, a.at); }
    }
  }

  function Apply(s: State, a: Action): (r: State)
    requires WellFormed(s)
    ensures WellFormed(r)
  {
    match a
    case Approve(server, fp) => Observed(s.(approvals := s.approvals[server := fp]), ApprovalSaved(server, fp))
    case Start(t, id) => EnterStep(s, t, id, StartCalled)
    case Stop(t, id) => EnterStep(s, t, id, StopCalled)
    case Look(id, now) => s.(table := Reaped(s.table, s.world, id, now))
    case Exit(h, reason) =>
      if Alive(s.world, h) then s.(world := s.world[h := s.world[h].(exited := Some(reason))]) else s
    case _ =>
      match ThreadOf(a)
      case Some(t) => if t in s.callers then CallerStepWellFormed(s, t, a); CallerStep(s, t, a) else s
      case None => s
  }

  lemma CallerActionIsStep(s: State, a: Action)
    requires WellFormed(s) && ThreadOf(a).Some?
    ensures Apply(s, a) == if a.thread in s.callers then CallerStep(s, a.thread, a) else s
  {
  }

  function Initial(known: set<string>): State {
    State(known, map[], EMPTY, [], {}, map[], [])
  }

  function After(s: State, actions: seq<Action>): State
    requires WellFormed(s)
    decreases |actions|
  {
    if actions == [] then s else After(Apply(s, actions[0]), actions[1..])
  }
}
