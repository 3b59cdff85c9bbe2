/** The lifecycle maps as the program keeps them: every method is one section under the lifecycle lock. */
module LifecycleStore {
  import opened Wrappers
  import opened Lifecycle

  /** A launched process; its done channel yields the exit reason once the process is gone. */
  class Handle {
    ghost const id: nat
    ghost const key: string
    var exited: Option<string>

    constructor (ghost id: nat, ghost key: string)
      ensures this.id == id && this.key == key && exited == None
    {
      this.id, this.key, exited := id, key, None;
    }
  }

  datatype ProcessRecord = ProcessRecord(handle: Handle, startedAt: Time)

  ghost function Spec(r: ProcessRecord): Rec { Rec(r.handle.id, r.startedAt) }

  ghost function SpecMap(m: map<string, ProcessRecord>): map<string, Rec> {
    map id | id in m :: Spec(m[id])
  }

  lemma SpecMapUpdates(m: map<string, ProcessRecord>, id: string, r: ProcessRecord)
    ensures SpecMap(m[id := r]) == SpecMap(m)[id := Spec(r)]
    ensures SpecMap(m - {id}) == SpecMap(m) - {id}
  {
  }

  /** What a Start call is told under the lock, with the time the status reports. */
  datatype StartTurn =
    | AlreadyStarting(since: Time) | AlreadyRunning(since: Time) | AlreadyStopping(since: Time)
    | ReadinessFailed | ApprovalMissing | MayLaunch

  function ActiveTurn(activity: Activity): Option<StartTurn> {
    match activity
    case Idle => None
    case IsStarting(since) => Some(AlreadyStarting(since))
    case IsRunning(rec) => Some(AlreadyRunning(rec.startedAt))
    case IsStopping(rec) => Some(AlreadyStopping(rec.startedAt))
  }

  function TurnOf(r: ClaimResult): StartTurn
    requires r.Busy? ==> r.activity != Idle
  {
    match r
    case Busy(activity) => ActiveTurn(activity).value
    case NotReady => ReadinessFailed
    case NotApproved => ApprovalMissing
    case Granted => MayLaunch
  }

  /** What a Stop call is told under the lock. */
  datatype StopTurn = StopPending | LaunchPending | NothingToStop | MayStop(record: ProcessRecord)

  ghost predicate Answers(turn: StopTurn, r: StopResult) {
    match r
    case StopInProgress => turn == StopPending
    case StillStarting => turn == LaunchPending
    case NotRunning => turn == NothingToStop
    case Stops(rec) => turn.MayStop? && Spec(turn.record) == rec
  }

  class Store {
    var starting: map<string, Time>
    var running: map<string, ProcessRecord>
    var stopping: map<string, ProcessRecord>
    var exits: map<string, ExitRec>
    /** Every process ever launched. */
    ghost var world: seq<Handle>

    ghost predicate Valid()
      reads this
    {
      && (forall i :: 0 <= i < |world| ==> world[i].id == i)
      && (forall id :: id in running ==> running[id].handle in world)
      && (forall id :: id in stopping ==> stopping[id].handle in world)
    }

    ghost function View(): Table
      reads this
    {
      Table(starting, SpecMap(running), SpecMap(stopping), exits)
    }

    ghost function Processes(): (r: World)
      reads this, world
      ensures |r| == |world| && forall i :: 0 <= i < |world| ==> r[i] == Process(world[i].key, world[i].exited)
    {
      seq(|world|, i requires 0 <= i < |world| reads this, world => Process(world[i].key, world[i].exited))
    }

    constructor ()
      ensures Valid() && View() == EMPTY && world == []
    {
      starting, running, stopping, exits, world := map[], map[], map[], map[], [];
    }

    lemma HandleOf(h: Handle)
      requires Valid() && h in world
      ensures h.id < |world| && world[h.id] == h && Processes()[h.id] == Process(h.key, h.exited)
    {
    }

    lemma HandlesAreOk()
      requires Valid()
      ensures HandlesOk(View(), Processes())
    {
    }

    method ReapLocked(id: string, now: Time)
      requires Valid()
      modifies this`running, this`exits
      ensures Valid() && HandlesOk(old(View()), Processes()) && View() == Reaped(old(View()), Processes(), id, now)
    {
      HandlesAreOk();
      if id in running {
        var record := running[id];
        HandleOf(record.handle);
        if record.handle.exited.Some? {
          SpecMapUpdates(running, id, record);
          running := running - {id};
          exits := exits[id := ExitRec(now, record.handle.exited.value)];
        }
      }
    }

    method ActiveLocked(id: string) returns (turn: Option<StartTurn>)
      requires Valid()
      ensures turn == ActiveTurn(ActivityOf(View(), id))
    {
      if id in starting { return Some(AlreadyStarting(starting[id])); }
      if id in running { return Some(AlreadyRunning(running[id].startedAt)); }
      if id in stopping { return Some(AlreadyStopping(stopping[id].startedAt)); }
      return None;
    }

    /** The second locked section of Start: what becomes of the call, and the claim if it is granted. */
    method ClaimLocked(id: string, report: Report, now: Time) returns (turn: StartTurn)
      requires Valid()
      modifies this`starting, this`running, this`exits
      ensures Valid() && HandlesOk(old(View()), Processes())
      ensures var (table, r) := ClaimIn(old(View()), Processes(), id, report, now);
              View() == table && turn == TurnOf(r)
    {
      ReapLocked(id, now);
      turn := ClaimReapedLocked(id, report, now);
    }

    method ClaimReapedLocked(id: string, report: Report, now: Time) returns (turn: StartTurn)
      requires Valid()
      modifies this`starting
      ensures Valid()
      ensures var (table, r) := ClaimReaped(old(View()), id, report, now); View() == table && turn == TurnOf(r)
    {
      var active := ActiveLocked(id);
      if active.Some? { return active.value; }
      if !report.ready { return ReadinessFailed; }
      if report.verdict != Approved { return ApprovalMissing; }
      starting := starting[id := now];
      return MayLaunch;
    }

    /** The last locked section of Start, with the launched process if there is one. */
    method CommitLocked(id: string, launched: Option<ProcessRecord>)
      requires Valid() && (launched.Some? ==> launched.value.handle in world)
      modifies this`starting, this`running, this`exits
      ensures Valid()
      ensures View() == CommitIn(old(View()), id, if launched.Some? then Some(Spec(launched.value)) else None)
    {
      starting := starting - {id};
      if launched.Some? {
        SpecMapUpdates(running, id, launched.value);
        running := running[id := launched.value];
        exits := exits - {id};
      }
    }

    method MoveToStopping(id: string) returns (record: ProcessRecord)
      requires Valid() && id in running
      modifies this`running, this`stopping
      ensures Valid() && record == old(running)[id] && record.handle in world
      ensures View() == old(View()).(running := old(View()).running - {id},
                                     stopping := old(View()).stopping[id := Spec(record)])
    {
      record := running[id];
      SpecMapUpdates(running, id, record);
      SpecMapUpdates(stopping, id, record);
      running := running - {id};
      stopping := stopping[id := record];
    }

    /** The first locked section of Stop: why there is nothing to stop, or the record to stop. */
    method BeginStopLocked(id: string, now: Time) returns (turn: StopTurn)
      requires Valid()
      modifies this`running, this`stopping, this`exits
      ensures Valid() && HandlesOk(old(View()), Processes())
      ensures var (table, r) := BeginStopIn(old(View()), Processes(), id, now); View() == table && Answers(turn, r)
      ensures turn.MayStop? ==> turn.record.handle in world
    {
      ReapLocked(id, now);
      if id in stopping { return StopPending; }
      if id in starting { return LaunchPending; }
      if id !in running { return NothingToStop; }
      var record := MoveToStopping(id);
      return MayStop(record);
    }

    /** The last locked section of Stop, after the handle reported success or failure. */
    method SettleStopLocked(id: string, record: ProcessRecord, ok: bool, now: Time)
      requires Valid() && record.handle in world
      modifies this`running, this`stopping, this`exits
      ensures Valid() && record.handle.id < |Processes()|
      ensures View() == SettleStopIn(old(View()), Processes(), id, Spec(record), ok, now)
    {
      HandleOf(record.handle);
      SpecMapUpdates(stopping, id, record);
      stopping := stopping - {id};
      if ok {
        exits := exits[id := ExitRec(now, "stopped by user")];
      } else {
        RestoreAfterStopFailureLocked(id, record, now);
      }
    }

    method RestoreAfterStopFailureLocked(id: string, record: ProcessRecord, now: Time)
      requires Valid() && record.handle in world
      modifies this`running, this`exits
      ensures Valid()
      ensures if record.handle.exited.Some? then
                View() == old(View()).(exits := old(exits)[id := ExitRec(now, record.handle.exited.value)])
              else View() == old(View()).(running := old(View()).running[id := Spec(record)])
    {
      if record.handle.exited.Some? {
        exits := exits[id := ExitRec(now, record.handle.exited.value)];
      } else {
        SpecMapUpdates(running, id, record);
        running := running[id := record];
      }
    }
  }
}
