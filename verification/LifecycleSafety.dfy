/** What the lifecycle maps, the processes and the callers keep under every interleaving. */
module LifecycleSafety {
  import opened Wrappers
  import opened Lifecycle

  /** The caller holds the start claim of its id. */
  predicate Claims(p: Progress) { p.Claimed? || p.Verified? || p.Rejected? || p.Launching? || p.LaunchReturned? }

  function Held(p: Progress): Option<nat> {
    match p
    case Launching(_, h) => Some(h)
    case LaunchReturned(_, launched) => launched
    case _ => None
  }

  function StopRec(p: Progress): Option<Rec> {
    match p
    case Stopping(rec) => Some(rec)
    case StopReturned(rec, _) => Some(rec)
    case _ => None
  }

  predicate Disjoint(table: Table) {
    && (forall id :: id in table.starting ==> id !in table.running && id !in table.stopping)
    && (forall id :: id in table.running ==> id !in table.stopping)
  }

  predicate Starter(callers: map<nat, Caller>, t: nat, id: string) {
    t in callers && callers[t].id == id && Claims(callers[t].progress)
  }

  predicate Stopper(callers: map<nat, Caller>, t: nat, id: string) {
    t in callers && callers[t].id == id && StopRec(callers[t].progress).Some?
  }

  /** A starting id belongs to exactly one caller, a stopping id too, and that caller holds the record. */
  ghost predicate StartersOk(starting: map<string, Time>, callers: map<nat, Caller>) {
    && (forall t, id :: Starter(callers, t, id) ==> id in starting)
    && (forall t, u, id :: Starter(callers, t, id) && Starter(callers, u, id) ==> t == u)
    && (forall id :: id in starting ==> exists t :: Starter(callers, t, id))
  }

  ghost predicate StoppersOk(stopping: map<string, Rec>, callers: map<nat, Caller>) {
    && (forall t, id :: Stopper(callers, t, id) ==>
          id in stopping && StopRec(callers[t].progress) == Some(stopping[id]))
    && (forall t, u, id :: Stopper(callers, t, id) && Stopper(callers, u, id) ==> t == u)
    && (forall id :: id in stopping ==> exists t :: Stopper(callers, t, id))
  }

  /** A handle on record, or in a caller's hands, is a process launched under that very id. */
  ghost predicate KeysOk(table: Table, world: World, callers: map<nat, Caller>) {
    && HandlesOk(table, world)
    && (forall id :: id in table.running ==> world[table.running[id].handle].key == id)
    && (forall id :: id in table.stopping ==> world[table.stopping[id].handle].key == id)
    && (forall t :: t in callers ==> CallerKeysOk(callers[t], world))
  }

  predicate CallerKeysOk(c: Caller, world: World) {
    && (Held(c.progress).Some? ==> Held(c.progress).value < |world| && world[Held(c.progress).value].key == c.id)
    && (StopRec(c.progress).Some? ==> StopRec(c.progress).value.handle < |world|)
    && (c.progress.StopReturned? && c.progress.ok ==> !Alive(world, c.progress.rec.handle))
  }

  predicate OnRecord(table: Table, key: string, h: nat) {
    || (key in table.running && table.running[key].handle == h)
    || (key in table.stopping && table.stopping[key].handle == h)
  }

  predicate InHand(callers: map<nat, Caller>, t: nat, h: nat) {
    t in callers && Held(callers[t].progress) == Some(h)
  }

  ghost predicate Tracked(table: Table, world: World, callers: map<nat, Caller>, h: nat)
    requires h < |world|
  {
    OnRecord(table, world[h].key, h) || exists t :: InHand(callers, t, h)
  }

  /** Every live process is on record or in the hands of the caller launching it, unless its launcher abandoned it. */
  ghost predicate TrackedOk(table: Table, world: World, callers: map<nat, Caller>, abandoned: set<nat>) {
    forall h :: 0 <= h < |world| && Alive(world, h) && h !in abandoned ==> Tracked(table, world, callers, h)
  }

  ghost predicate Inv(s: State) {
    && Disjoint(s.table)
    && StartersOk(s.table.starting, s.callers)
    && StoppersOk(s.table.stopping, s.callers)
    && KeysOk(s.table, s.world, s.callers)
    && TrackedOk(s.table, s.world, s.callers, s.abandoned)
  }

  lemma InvIsWellFormed(s: State)
    requires Inv(s)
    ensures WellFormed(s)
  {
    forall t | t in s.callers ensures StopHandleOk(s.callers[t], s.world) && LaunchHandleOk(s.callers[t], s.world) {
      assert CallerKeysOk(s.callers[t], s.world);
    }
  }

  // ---- Steps that leave the maps alone ----

  lemma ReapKeeps(s: State, id: string, now: Time)
    requires Inv(s)
    ensures Inv(s.(table := Reaped(s.table, s.world, id, now)))
  {
    var table := Reaped(s.table, s.world, id, now);
    forall h | 0 <= h < |s.world| && Alive(s.world, h) && h !in s.abandoned
      ensures Tracked(table, s.world, s.callers, h)
    {
      assert Tracked(s.table, s.world, s.callers, h);
    }
  }

  /** The new progress holds the same claim and stop record, and drops no process that is alive and not abandoned. */
  predicate SameDuty(old': Progress, new': Progress) {
    && Claims(old') == Claims(new')
    && StopRec(old') == StopRec(new')
  }

  lemma MoveKeepsStarters(starting: map<string, Time>, callers: map<nat, Caller>, t: nat, c: Caller)
    requires StartersOk(starting, callers)
    requires if t in callers then callers[t].id == c.id && Claims(callers[t].progress) == Claims(c.progress)
             else !Claims(c.progress)
    ensures StartersOk(starting, callers[t := c])
  {
    var after := callers[t := c];
    assert forall u, id :: Starter(after, u, id) <==> Starter(callers, u, id);
    forall id | id in starting ensures exists u :: Starter(after, u, id) {
      var u :| Starter(callers, u, id);
      assert Starter(after, u, id);
    }
  }

  lemma MoveKeepsStoppers(stopping: map<string, Rec>, callers: map<nat, Caller>, t: nat, c: Caller)
    requires StoppersOk(stopping, callers)
    requires if t in callers then callers[t].id == c.id && StopRec(callers[t].progress) == StopRec(c.progress)
             else StopRec(c.progress).None?
    ensures StoppersOk(stopping, callers[t := c])
  {
    var after := callers[t := c];
    assert forall u, id :: Stopper(after, u, id) <==> Stopper(callers, u, id);
    forall id | id in stopping ensures exists u :: Stopper(after, u, id) {
      var u :| Stopper(callers, u, id);
      assert Stopper(after, u, id);
    }
  }

  lemma MoveKeepsTracked(table: Table, world: World, callers: map<nat, Caller>, abandoned: set<nat>, t: nat, c: Caller)
    requires TrackedOk(table, world, callers, abandoned)
    requires t in callers && Held(callers[t].progress).Some? ==>
               Held(c.progress) == Held(callers[t].progress) || !Alive(world, Held(callers[t].progress).value)
               || Held(callers[t].progress).value in abandoned
    ensures TrackedOk(table, world, callers[t := c], abandoned)
  {
    forall h | 0 <= h < |world| && Alive(world, h) && h !in abandoned
      ensures Tracked(table, world, callers[t := c], h)
    {
      assert Tracked(table, world, callers, h);
      if !OnRecord(table, world[h].key, h) {
        var u :| InHand(callers, u, h);
        assert InHand(callers[t := c], u, h);
      }
    }
  }

  lemma MoveKeeps(s: State, t: nat, c: Caller)
    requires Inv(s) && CallerKeysOk(c, s.world)
    requires if t in s.callers then s.callers[t].id == c.id && SameDuty(s.callers[t].progress, c.progress)
             else !Claims(c.progress) && StopRec(c.progress).None?
    requires t in s.callers && Held(s.callers[t].progress).Some? ==>
               Held(c.progress) == Held(s.callers[t].progress) || !Alive(s.world, Held(s.callers[t].progress).value)
               || Held(s.callers[t].progress).value in s.abandoned
    ensures Inv(s.(callers := s.callers[t := c]))
  {
    MoveKeepsStarters(s.table.starting, s.callers, t, c);
    MoveKeepsStoppers(s.table.stopping, s.callers, t, c);
    MoveKeepsTracked(s.table, s.world, s.callers, s.abandoned, t, c);
  }

  // ---- The claim ----

  lemma ClaimKeepsStarters(starting: map<string, Time>, callers: map<nat, Caller>, t: nat, c: Caller, now: Time)
    requires StartersOk(starting, callers) && c.id !in starting && Claims(c.progress)
    requires t in callers ==> callers[t].id == c.id
    ensures StartersOk(starting[c.id := now], callers[t := c])
  {
    var after := callers[t := c];
    var grown := starting[c.id := now];
    forall id | id in grown ensures exists u :: Starter(after, u, id) {
      if id == c.id {
        assert Starter(after, t, id);
      } else {
        var u :| Starter(callers, u, id);
        assert Starter(after, u, id);
      }
    }
    assert forall u, id :: Starter(after, u, id) <==> (Starter(callers, u, id) && u != t) || (u == t && id == c.id);
    assert forall u :: !Starter(callers, u, c.id);
  }

  lemma TableKeepsTracked(table: Table, table': Table, world: World, callers: map<nat, Caller>, abandoned: set<nat>)
    requires TrackedOk(table, world, callers, abandoned)
    requires table.running == table'.running && table.stopping == table'.stopping
    ensures TrackedOk(table', world, callers, abandoned)
  {
    forall h | 0 <= h < |world| && Alive(world, h) && h !in abandoned ensures Tracked(table', world, callers, h) {
      assert Tracked(table, world, callers, h);
    }
  }

  /** Granting a claim on an idle id. */
  lemma GrantKeeps(s: State, t: nat, c: Caller, expected: Option<Fp>, now: Time)
    requires Inv(s) && t in s.callers && s.callers[t] == c && c.progress.Checked?
    requires ActivityOf(s.table, c.id) == Idle
    ensures Inv(To(s.(table := s.table.(starting := s.table.starting[c.id := now])), t, c, Claimed(expected, now)))
  {
    var c' := c.(progress := Claimed(expected, now));
    var table' := s.table.(starting := s.table.starting[c.id := now]);
    ClaimKeepsStarters(s.table.starting, s.callers, t, c', now);
    MoveKeepsStoppers(s.table.stopping, s.callers, t, c');
    TableKeepsTracked(s.table, table', s.world, s.callers, s.abandoned);
    MoveKeepsTracked(table', s.world, s.callers, s.abandoned, t, c');
  }

  lemma ClaimReapedKeeps(s: State, t: nat, c: Caller, report: Report, now: Time)
    requires Inv(s) && t in s.callers && s.callers[t] == c && c.progress.Checked?
    ensures var (table, r) := ClaimReaped(s.table, c.id, report, now);
            Inv(To(s.(table := table), t, c, ClaimProgress(report, r, now)))
  {
    var (table, r) := ClaimReaped(s.table, c.id, report, now);
    if r.Granted? {
      GrantKeeps(s, t, c, report.fingerprint, now);
    } else {
      MoveKeeps(s, t, c.(progress := ClaimProgress(report, r, now)));
    }
  }

  lemma ClaimKeeps(s: State, t: nat, c: Caller, now: Time)
    requires Inv(s) && t in s.callers && s.callers[t] == c && c.progress.Checked?
    ensures Inv(ClaimStep(s, t, c, c.progress.report, now))
  {
    var report := c.progress.report;
    ReapKeeps(s, c.id, now);
    ClaimReapedKeeps(s.(table := Reaped(s.table, s.world, c.id, now)), t, c, report, now);
  }

  // ---- The launch ----

  lemma SpawnKeepsTracked(s: State, t: nat, c: Caller, c': Caller)
    requires TrackedOk(s.table, s.world, s.callers, s.abandoned) && t in s.callers && s.callers[t] == c
    requires Held(c.progress).None? && Held(c'.progress) == Some(|s.world|)
    ensures TrackedOk(s.table, s.world + [Process(c.id, None)], s.callers[t := c'], s.abandoned)
  {
    var world := s.world + [Process(c.id, None)];
    forall h | 0 <= h < |world| && Alive(world, h) && h !in s.abandoned
      ensures Tracked(s.table, world, s.callers[t := c'], h)
    {
      if h == |s.world| {
        assert InHand(s.callers[t := c'], t, h);
      } else {
        assert Alive(s.world, h);
        assert Tracked(s.table, s.world, s.callers, h);
        if !OnRecord(s.table, world[h].key, h) {
          var u :| InHand(s.callers, u, h);
          assert InHand(s.callers[t := c'], u, h);
        }
      }
    }
  }

  lemma SpawnKeeps(s: State, t: nat, c: Caller, fp: Fp, since: Time)
    requires Inv(s) && t in s.callers && s.callers[t] == c && c.progress == Verified(fp, since)
    ensures Inv(SpawnStep(s, t, c, fp, since))
  {
    var c' := c.(progress := Launching(since, |s.world|));
    var world := s.world + [Process(c.id, None)];
    MoveKeepsStarters(s.table.starting, s.callers, t, c');
    MoveKeepsStoppers(s.table.stopping, s.callers, t, c');
    SpawnKeepsTracked(s, t, c, c');
    forall u | u in s.callers && u != t ensures CallerKeysOk(s.callers[u], world) {
      assert CallerKeysOk(s.callers[u], s.world);
    }
  }

  lemma AbandonKeepsTracked(s: State, h: nat)
    requires TrackedOk(s.table, s.world, s.callers, s.abandoned)
    ensures TrackedOk(s.table, s.world, s.callers, s.abandoned + {h})
  {
    forall g | 0 <= g < |s.world| && Alive(s.world, g) && g !in s.abandoned + {h}
      ensures Tracked(s.table, s.world, s.callers, g)
    {
      assert g !in s.abandoned;
    }
  }

  lemma ReturnKeeps(s: State, t: nat, c: Caller, since: Time, h: nat, ok: bool)
    requires Inv(s) && t in s.callers && s.callers[t] == c && c.progress == Launching(since, h)
    ensures Inv(ReturnStep(s, t, c, since, h, ok))
  {
    assert CallerKeysOk(c, s.world);
    if ok {
      MoveKeeps(s, t, c.(progress := LaunchReturned(since, Some(h))));
    } else {
      AbandonKeepsTracked(s, h);
      var after := if Alive(s.world, h) then s.(abandoned := s.abandoned + {h}) else s;
      MoveKeeps(after, t, c.(progress := LaunchReturned(since, None)));
    }
  }

  // ---- The commit ----

  lemma ReleaseKeepsStarters(starting: map<string, Time>, callers: map<nat, Caller>, t: nat, c: Caller)
    requires StartersOk(starting, callers) && Starter(callers, t, c.id) && !Claims(c.progress)
    ensures StartersOk(starting - {c.id}, callers[t := c])
  {
    var after := callers[t := c];
    assert forall u, id :: Starter(after, u, id) <==> Starter(callers, u, id) && u != t;
    forall id | id in starting - {c.id} ensures exists u :: Starter(after, u, id) {
      var u :| Starter(callers, u, id);
      assert Starter(after, u, id);
    }
  }

  lemma CommitKeepsTracked(s: State, t: nat, c: Caller, c': Caller, launched: Option<Rec>)
    requires Inv(s) && t in s.callers && s.callers[t] == c && Claims(c.progress)
    requires launched.None? ==> Held(c.progress).None?
    requires launched.Some? ==> Held(c.progress) == Some(launched.value.handle)
    ensures TrackedOk(CommitIn(s.table, c.id, launched), s.world, s.callers[t := c'], s.abandoned)
  {
    var table := CommitIn(s.table, c.id, launched);
    assert Starter(s.callers, t, c.id);
    assert CallerKeysOk(c, s.world);
    forall h | 0 <= h < |s.world| && Alive(s.world, h) && h !in s.abandoned
      ensures Tracked(table, s.world, s.callers[t := c'], h)
    {
      assert Tracked(s.table, s.world, s.callers, h);
      if OnRecord(s.table, s.world[h].key, h) {
        assert OnRecord(table, s.world[h].key, h);
      } else {
        var u :| InHand(s.callers, u, h);
        if u == t {
          assert OnRecord(table, s.world[h].key, h);
        } else {
          assert InHand(s.callers[t := c'], u, h);
        }
      }
    }
  }

  lemma CommitKeepsTable(table: Table, world: World, id: string, launched: Option<Rec>)
    requires Disjoint(table) && id in table.starting && HandlesOk(table, world)
    requires forall k :: k in table.running ==> world[table.running[k].handle].key == k
    requires launched.Some? ==> launched.value.handle < |world| && world[launched.value.handle].key == id
    ensures var after := CommitIn(table, id, launched);
            && Disjoint(after) && HandlesOk(after, world) && after.stopping == table.stopping
            && forall k :: k in after.running ==> world[after.running[k].handle].key == k
  {
  }

  lemma CommitKeepsKeys(s: State, t: nat, c: Caller, launched: Option<Rec>, outcome: Outcome)
    requires Inv(s) && t in s.callers && s.callers[t] == c && Claims(c.progress)
    requires launched.Some? ==> Held(c.progress) == Some(launched.value.handle)
    ensures var table := CommitIn(s.table, c.id, launched);
            Disjoint(table) && KeysOk(table, s.world, s.callers[t := c.(progress := Finished(outcome))])
  {
    assert Starter(s.callers, t, c.id);
    assert CallerKeysOk(c, s.world);
    CommitKeepsTable(s.table, s.world, c.id, launched);
  }

  lemma CommitKeepsWith(s: State, t: nat, c: Caller, launched: Option<Rec>, outcome: Outcome)
    requires Inv(s) && t in s.callers && s.callers[t] == c && Claims(c.progress)
    requires launched.None? ==> Held(c.progress).None?
    requires launched.Some? ==> Held(c.progress) == Some(launched.value.handle)
    ensures Inv(To(s.(table := CommitIn(s.table, c.id, launched)), t, c, Finished(outcome)))
  {
    var c' := c.(progress := Finished(outcome));
    assert Starter(s.callers, t, c.id);
    CommitKeepsKeys(s, t, c, launched, outcome);
    ReleaseKeepsStarters(s.table.starting, s.callers, t, c');
    MoveKeepsStoppers(s.table.stopping, s.callers, t, c');
    CommitKeepsTracked(s, t, c, c', launched);
  }

  lemma CommitKeeps(s: State, t: nat, c: Caller)
    requires Inv(s) && t in s.callers && s.callers[t] == c
    ensures Inv(CommitStep(s, t, c))
  {
    match c.progress
    case LaunchReturned(since, Some(h)) => CommitKeepsWith(s, t, c, Some(Rec(h, since)), StartedNow);
    case LaunchReturned(since, None) => CommitKeepsWith(s, t, c, None, LaunchFailed);
    case Rejected => CommitKeepsWith(s, t, c, None, Blocked);
    case _ =>
  }

  // ---- The stop ----

  lemma StopsKeepsStoppers(stopping: map<string, Rec>, callers: map<nat, Caller>, t: nat, c: Caller, rec: Rec)
    requires StoppersOk(stopping, callers) && c.id !in stopping && c.progress == Stopping(rec)
    requires t in callers ==> callers[t].id == c.id
    ensures StoppersOk(stopping[c.id := rec], callers[t := c])
  {
    var after := callers[t := c];
    var grown := stopping[c.id := rec];
    forall id | id in grown ensures exists u :: Stopper(after, u, id) {
      if id == c.id {
        assert Stopper(after, t, id);
      } else {
        var u :| Stopper(callers, u, id);
        assert Stopper(after, u, id);
      }
    }
    assert forall u, id :: Stopper(after, u, id) <==> (Stopper(callers, u, id) && u != t) || (u == t && id == c.id);
    assert forall u :: !Stopper(callers, u, c.id);
  }

  lemma StoppingKeepsTracked(table: Table, world: World, callers: map<nat, Caller>, abandoned: set<nat>, id: string)
    requires TrackedOk(table, world, callers, abandoned) && id in table.running && id !in table.stopping
    ensures TrackedOk(WithStopping(table, id), world, callers, abandoned)
  {
    var table' := WithStopping(table, id);
    forall h | 0 <= h < |world| && Alive(world, h) && h !in abandoned ensures Tracked(table', world, callers, h) {
      assert Tracked(table, world, callers, h);
    }
  }

  /** The table with the record of this id moved from running to stopping. */
  function WithStopping(table: Table, id: string): Table
    requires id in table.running
  {
    table.(running := table.running - {id}, stopping := table.stopping[id := table.running[id]])
  }

  lemma StoppingKeepsKeys(table: Table, world: World, callers: map<nat, Caller>, t: nat, c: Caller)
    requires Disjoint(table) && KeysOk(table, world, callers) && c.id in table.running
    requires c.progress == Stopping(table.running[c.id])
    ensures Disjoint(WithStopping(table, c.id)) && KeysOk(WithStopping(table, c.id), world, callers[t := c])
  {
  }

  lemma SetStoppingKeeps(s: State, t: nat, c: Caller)
    requires Inv(s) && t in s.callers && s.callers[t] == c && c.progress.StopCalled?
    requires c.id in s.table.running
    ensures Inv(To(s.(table := WithStopping(s.table, c.id)), t, c, Stopping(s.table.running[c.id])))
  {
    var rec := s.table.running[c.id];
    var c' := c.(progress := Stopping(rec));
    var table := WithStopping(s.table, c.id);
    StoppingKeepsKeys(s.table, s.world, s.callers, t, c');
    MoveKeepsStarters(s.table.starting, s.callers, t, c');
    StopsKeepsStoppers(s.table.stopping, s.callers, t, c', rec);
    StoppingKeepsTracked(s.table, s.world, s.callers, s.abandoned, c.id);
    MoveKeepsTracked(table, s.world, s.callers, s.abandoned, t, c');
  }

  lemma BeginStopKeeps(s: State, t: nat, c: Caller, now: Time)
    requires Inv(s) && t in s.callers && s.callers[t] == c && c.progress.StopCalled?
    ensures Inv(BeginStopStep(s, t, c, now))
  {
    var reaped := s.(table := Reaped(s.table, s.world, c.id, now));
    ReapKeeps(s, c.id, now);
    var (table, r) := BeginStopIn(s.table, s.world, c.id, now);
    match r
    case Stops(_) => SetStoppingKeeps(reaped, t, c);
    case _ => MoveKeeps(reaped, t, c.(progress := Finished(StopRefused)));
  }

  lemma HandleStopKeeps(s: State, t: nat, c: Caller, rec: Rec, ok: bool)
    requires Inv(s) && t in s.callers && s.callers[t] == c && c.progress == Stopping(rec)
    ensures Inv(HandleStopStep(s, t, c, rec, ok))
  {
    assert CallerKeysOk(c, s.world);
    if !(ok && Alive(s.world, rec.handle)) {
      MoveKeeps(s, t, c.(progress := StopReturned(rec, ok)));
    }
  }

  lemma ReleaseKeepsStoppers(stopping: map<string, Rec>, callers: map<nat, Caller>, t: nat, c: Caller)
    requires StoppersOk(stopping, callers) && Stopper(callers, t, c.id) && StopRec(c.progress).None?
    ensures StoppersOk(stopping - {c.id}, callers[t := c])
  {
    var after := callers[t := c];
    assert forall u, id :: Stopper(after, u, id) <==> Stopper(callers, u, id) && u != t;
    forall id | id in stopping - {c.id} ensures exists u :: Stopper(after, u, id) {
      var u :| Stopper(callers, u, id);
      assert Stopper(after, u, id);
    }
  }

  lemma SettleKeepsTracked(s: State, t: nat, c: Caller, c': Caller, rec: Rec, ok: bool, now: Time)
    requires Inv(s) && t in s.callers && s.callers[t] == c && c.progress == StopReturned(rec, ok)
    ensures rec.handle < |s.world|
    ensures TrackedOk(SettleStopIn(s.table, s.world, c.id, rec, ok, now), s.world, s.callers[t := c'], s.abandoned)
  {
    assert CallerKeysOk(c, s.world);
    assert Stopper(s.callers, t, c.id);
    var table := SettleStopIn(s.table, s.world, c.id, rec, ok, now);
    forall h | 0 <= h < |s.world| && Alive(s.world, h) && h !in s.abandoned
      ensures Tracked(table, s.world, s.callers[t := c'], h)
    {
      assert Tracked(s.table, s.world, s.callers, h);
      if OnRecord(s.table, s.world[h].key, h) {
        assert OnRecord(table, s.world[h].key, h);
      } else {
        var u :| InHand(s.callers, u, h);
        assert InHand(s.callers[t := c'], u, h);
      }
    }
  }

  lemma SettleKeepsTable(table: Table, world: World, id: string, ok: bool, now: Time)
    requires Disjoint(table) && HandlesOk(table, world) && id in table.stopping
    requires forall k :: k in table.running ==> world[table.running[k].handle].key == k
    requires forall k :: k in table.stopping ==> world[table.stopping[k].handle].key == k
    ensures var after := SettleStopIn(table, world, id, table.stopping[id], ok, now);
            && Disjoint(after) && HandlesOk(after, world) && after.stopping == table.stopping - {id}
            && after.starting == table.starting
            && forall k :: k in after.running ==> world[after.running[k].handle].key == k
  {
  }

  lemma SettleKeepsMaps(s: State, t: nat, c: Caller, rec: Rec, ok: bool, now: Time, outcome: Outcome)
    requires Inv(s) && t in s.callers && s.callers[t] == c && c.progress == StopReturned(rec, ok)
    ensures rec.handle < |s.world|
    ensures Inv(To(s.(table := SettleStopIn(s.table, s.world, c.id, rec, ok, now)), t, c, Finished(outcome)))
  {
    var c' := c.(progress := Finished(outcome));
    assert CallerKeysOk(c, s.world);
    assert Stopper(s.callers, t, c.id);
    SettleKeepsTable(s.table, s.world, c.id, ok, now);
    SettleKeepsTracked(s, t, c, c', rec, ok, now);
    MoveKeepsStarters(s.table.starting, s.callers, t, c');
    ReleaseKeepsStoppers(s.table.stopping, s.callers, t, c');
  }

  lemma TraceDoesNotMatter(s: State, after: State)
    requires Inv(s) && after == s.(trace := after.trace, approvals := after.approvals)
    ensures Inv(after)
  {
  }

  lemma SettleKeeps(s: State, t: nat, c: Caller, rec: Rec, ok: bool, now: Time)
    requires Inv(s) && t in s.callers && s.callers[t] == c && c.progress == StopReturned(rec, ok)
    ensures rec.handle < |s.world|
    ensures Inv(SettleStep(s, t, c, rec, ok, now))
  {
    var outcome := if ok then Stopped else StopFailed;
    SettleKeepsMaps(s, t, c, rec, ok, now, outcome);
    TraceDoesNotMatter(To(s.(table := SettleStopIn(s.table, s.world, c.id, rec, ok, now)), t, c, Finished(outcome)),
                       SettleStep(s, t, c, rec, ok, now));
  }

  // ---- Everyone else ----

  lemma ExitKeeps(s: State, h: nat, reason: string)
    requires Inv(s) && Alive(s.world, h)
    ensures Inv(s.(world := s.world[h := s.world[h].(exited := Some(reason))]))
  {
    var world := s.world[h := s.world[h].(exited := Some(reason))];
    forall u | u in s.callers ensures CallerKeysOk(s.callers[u], world) {
      assert CallerKeysOk(s.callers[u], s.world);
    }
    forall g | 0 <= g < |world| && Alive(world, g) && g !in s.abandoned ensures Tracked(s.table, world, s.callers, g) {
      assert Alive(s.world, g);
      assert Tracked(s.table, s.world, s.callers, g);
    }
  }

  lemma GateKeeps(s: State, t: nat, c: Caller, now: Time)
    requires Inv(s) && t in s.callers && s.callers[t] == c && c.progress.StartCalled?
    ensures Inv(GateStep(s, t, c, now))
  {
    ReapKeeps(s, c.id, now);
    var table := Reaped(s.table, s.world, c.id, now);
    MoveKeeps(s.(table := table), t, c.(progress :=
      if ActivityOf(table, c.id) == Idle then Checking else Finished(AlreadyActive(ActivityOf(table, c.id)))));
  }

  lemma PreflightKeeps(s: State, t: nat, c: Caller, ready: bool, observed: Option<Fp>)
    requires Inv(s) && t in s.callers && s.callers[t] == c && c.progress.Checking?
    ensures Inv(PreflightStep(s, t, c, ready, observed))
  {
    var after := PreflightStep(s, t, c, ready, observed);
    MoveKeeps(s, t, after.callers[t]);
    TraceDoesNotMatter(s.(callers := after.callers), after);
  }

  lemma VerifyKeeps(s: State, t: nat, c: Caller, expected: Option<Fp>, since: Time, observed: Option<Fp>)
    requires Inv(s) && t in s.callers && s.callers[t] == c && c.progress == Claimed(expected, since)
    ensures Inv(VerifyStep(s, t, c, expected, since, observed))
  {
    var after := VerifyStep(s, t, c, expected, since, observed);
    MoveKeeps(s, t, after.callers[t]);
    TraceDoesNotMatter(s.(callers := after.callers), after);
  }

  lemma StartStepsKeep(s: State, t: nat, a: Action)
    requires Inv(s) && WellFormed(s) && t in s.callers
    requires a.Gate? || a.Preflight? || a.Claim? || a.Verify? || a.Spawn? || a.SpawnFails?
    ensures Inv(CallerStep(s, t, a))
  {
    var c := s.callers[t];
    if a.Gate? {
      if c.progress.StartCalled? { GateKeeps(s, t, c, a.at); }
    } else if a.Preflight? {
      if c.progress.Checking? { PreflightKeeps(s, t, c, a.ready, a.observed); }
    } else if a.Claim? {
      if c.progress.Checked? { ClaimKeeps(s, t, c, a.at); }
    } else if a.Verify? {
      if c.progress.Claimed? { VerifyKeeps(s, t, c, c.progress.expected, c.progress.since, a.observed); }
    } else if c.progress.Verified? {
      if a.Spawn? {
        SpawnKeeps(s, t, c, c.progress.fp, c.progress.since);
      } else {
        MoveKeeps(s, t, c.(progress := LaunchReturned(c.progress.since, None)));
      }
    }
  }

  lemma OtherStepsKeep(s: State, t: nat, a: Action)
    requires Inv(s) && WellFormed(s) && t in s.callers
    requires a.LauncherReturns? || a.Commit? || a.BeginStop? || a.HandleStops? || a.SettleStop?
    ensures Inv(CallerStep(s, t, a))
  {
    var c := s.callers[t];
    if a.LauncherReturns? {
      if c.progress.Launching? { ReturnKeeps(s, t, c, c.progress.since, c.progress.handle, a.ok); }
    } else if a.Commit? {
      CommitKeeps(s, t, c);
    } else if a.BeginStop? {
      if c.progress.StopCalled? { BeginStopKeeps(s, t, c, a.at); }
    } else if a.HandleStops? {
      if c.progress.Stopping? { HandleStopKeeps(s, t, c, c.progress.rec, a.ok); }
    } else if c.progress.StopReturned? {
      SettleKeeps(s, t, c, c.progress.rec, c.progress.ok, a.at);
    }
  }

  lemma CallerStepKeeps(s: State, t: nat, a: Action)
    requires Inv(s) && WellFormed(s) && t in s.callers && ThreadOf(a) == Some(t)
    ensures Inv(CallerStep(s, t, a))
  {
    if a.LauncherReturns? || a.Commit? || a.BeginStop? || a.HandleStops? || a.SettleStop? {
      OtherStepsKeep(s, t, a);
    } else {
      StartStepsKeep(s, t, a);
    }
  }

  lemma EnterKeeps(s: State, t: nat, id: string, p: Progress)
    requires Inv(s) && (p == StartCalled || p == StopCalled)
    ensures Inv(EnterStep(s, t, id, p))
  {
    if t !in s.callers { MoveKeeps(s, t, EnterStep(s, t, id, p).callers[t]); }
  }

  /** Every atomic step keeps the invariant. */
  lemma StepKeeps(s: State, a: Action)
    requires Inv(s) && WellFormed(s)
    ensures Inv(Apply(s, a))
  {
    if a.Approve? {
      TraceDoesNotMatter(s, Apply(s, a));
    } else if a.Start? {
      EnterKeeps(s, a.thread, a.id, StartCalled);
    } else if a.Stop? {
      EnterKeeps(s, a.thread, a.id, StopCalled);
    } else if a.Look? {
      ReapKeeps(s, a.id, a.at);
    } else if a.Exit? {
      if Alive(s.world, a.handle) { ExitKeeps(s, a.handle, a.reason); }
    } else {
      CallerActionIsStep(s, a);
      if a.thread in s.callers { CallerStepKeeps(s, a.thread, a); }
    }
  }
}
