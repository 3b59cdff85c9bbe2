/**
 At most one live process per server among those that Start launched, over every interleaving of starts, stops,
 approvals, status queries and process exits, under two conditions. Tool discovery and the health probe run the same
 command for a moment of their own: they neither look at these maps nor ask for a verdict, and are not in this machine.
 */
module LifecycleTheorems {
  import opened Wrappers
  import opened Lifecycle
  import opened LifecycleSafety
  import Text

  lemma {:induction false} RunKeeps(s: State, actions: seq<Action>)
    requires Inv(s) && WellFormed(s)
    ensures Inv(After(s, actions))
    decreases |actions|
  {
    if actions != [] {
      StepKeeps(s, actions[0]);
      RunKeeps(Apply(s, actions[0]), actions[1..]);
    }
  }

  ghost predicate Reachable(s: State) {
    exists known: set<string>, actions: seq<Action> :: s == After(Initial(known), actions)
  }

  lemma ReachableInv(s: State)
    requires Reachable(s)
    ensures Inv(s) && WellFormed(s)
  {
    var known: set<string>, actions: seq<Action> :| s == After(Initial(known), actions);
    RunKeeps(Initial(known), actions);
    InvIsWellFormed(s);
  }

  /** No id is in two of the maps; a starting id has exactly one starter, a stopping id exactly one stopper. */
  lemma MapsAreExclusive(s: State, id: string)
    requires Reachable(s)
    ensures id in s.table.starting ==> id !in s.table.running && id !in s.table.stopping
    ensures id in s.table.running ==> id !in s.table.stopping
    ensures id in s.table.starting <==> exists t :: Starter(s.callers, t, id)
    ensures id in s.table.stopping <==> exists t :: Stopper(s.callers, t, id)
    ensures forall t, u :: Starter(s.callers, t, id) && Starter(s.callers, u, id) ==> t == u
    ensures forall t, u :: Stopper(s.callers, t, id) && Stopper(s.callers, u, id) ==> t == u
  {
    ReachableInv(s);
  }

  /** A live process is never lost: it is running or stopping on record, or the start that made it is not over. */
  lemma LiveProcessesAreTracked(s: State, h: nat)
    requires Reachable(s) && Alive(s.world, h) && h !in s.abandoned
    ensures OnRecord(s.table, s.world[h].key, h)
         || exists t :: InHand(s.callers, t, h) && s.callers[t].id == s.world[h].key
                        && s.world[h].key in s.table.starting
  {
    ReachableInv(s);
    assert Tracked(s.table, s.world, s.callers, h);
    if !OnRecord(s.table, s.world[h].key, h) {
      var t :| InHand(s.callers, t, h);
      assert CallerKeysOk(s.callers[t], s.world);
      assert Starter(s.callers, t, s.world[h].key);
    }
  }

  /** Two different live processes under one id cannot both have come from a start that did not abandon them. */
  lemma OneLivePerId(s: State, g: nat, h: nat)
    requires Reachable(s) && Alive(s.world, g) && Alive(s.world, h) && s.world[g].key == s.world[h].key
    requires g !in s.abandoned && h !in s.abandoned
    ensures g == h
  {
    ReachableInv(s);
    LiveProcessesAreTracked(s, g);
    LiveProcessesAreTracked(s, h);
    var id := s.world[g].key;
    if !OnRecord(s.table, id, g) {
      var t :| InHand(s.callers, t, g) && s.callers[t].id == id && id in s.table.starting;
      var u :| InHand(s.callers, u, h) && s.callers[u].id == id && id in s.table.starting;
      assert Starter(s.callers, t, id) && Starter(s.callers, u, id);
    }
  }

  lemma StopperHoldsRecord(s: State, t: nat)
    requires Inv(s) && t in s.callers && s.callers[t].progress.StopReturned?
    ensures var id := s.callers[t].id;
            && id in s.table.stopping && s.table.stopping[id] == s.callers[t].progress.rec
            && id !in s.table.running && id !in s.table.starting
  {
    assert Stopper(s.callers, t, s.callers[t].id);
  }

  lemma SettlesAsFailed(s: State, t: nat, c: Caller, now: Time)
    requires WellFormed(s) && t in s.callers && s.callers[t] == c && c.progress.StopReturned? && !c.progress.ok
    requires Alive(s.world, c.progress.rec.handle) && c.id !in s.table.running
    ensures var after := Apply(s, SettleStop(t, now));
            && after.table == s.table.(stopping := s.table.stopping - {c.id},
                                       running := s.table.running[c.id := c.progress.rec])
            && after.world == s.world
  {
  }

  /** A stop that failed while the process lives puts the very same record back, and touches no other id. */
  lemma FailedStopRestores(s: State, t: nat, now: Time)
    requires Reachable(s) && t in s.callers && s.callers[t].progress.StopReturned? && !s.callers[t].progress.ok
    requires Alive(s.world, s.callers[t].progress.rec.handle)
    ensures WellFormed(s)
    ensures var id := s.callers[t].id; var after := Apply(s, SettleStop(t, now));
            && id in after.table.running && after.table.running[id] == s.callers[t].progress.rec
            && id !in after.table.stopping && id !in after.table.starting
            && after.table.running - {id} == s.table.running - {id}
            && after.table.stopping == s.table.stopping - {id} && after.world == s.world
  {
    ReachableInv(s);
    var c := s.callers[t];
    assert StopHandleOk(c, s.world);
    StopperHoldsRecord(s, t);
    SettlesAsFailed(s, t, c, now);
  }

  /** A stop reported as successful is the stop of a process that has exited. */
  lemma SuccessfulStopMeansExited(s: State, t: nat)
    requires Reachable(s) && t in s.callers && s.callers[t].progress.StopReturned? && s.callers[t].progress.ok
    ensures s.callers[t].progress.rec.handle < |s.world| && !Alive(s.world, s.callers[t].progress.rec.handle)
  {
    ReachableInv(s);
    assert CallerKeysOk(s.callers[t], s.world);
  }

  // ---- Per server, and not just per spelling of its id ----

  predicate Plain(id: string) { Text.TrimSpace(id) == id }

  predicate StartsPlainly(a: Action) { a.Start? ==> Plain(a.id) }

  predicate InStart(p: Progress) { p.StartCalled? || p.Checking? || p.Checked? || p.Claimed? || p.Verified? }

  ghost predicate PlainKeys(s: State) {
    && (forall t :: t in s.callers && InStart(s.callers[t].progress) ==> Plain(s.callers[t].id))
    && (forall h :: 0 <= h < |s.world| ==> Plain(s.world[h].key))
  }

  /**
   The step of a caller: nobody else's progress changes, the caller does not go back to starting, and only one still
   starting adds a process, under its own id.
   */
  ghost predicate CallerShape(s: State, after: State, t: nat) {
    && t in s.callers && after.callers.Keys == s.callers.Keys && after.callers[t].id == s.callers[t].id
    && (InStart(after.callers[t].progress) ==> InStart(s.callers[t].progress))
    && (forall u :: u in s.callers && u != t ==> after.callers[u] == s.callers[u])
    && (after.world == s.world
        || (InStart(s.callers[t].progress) && after.world == s.world + [Process(s.callers[t].id, None)]))
  }

  lemma MoveShape(s: State, base: State, t: nat, p: Progress)
    requires t in s.callers && base.callers == s.callers && base.world == s.world
    requires InStart(p) ==> InStart(s.callers[t].progress)
    ensures CallerShape(s, To(base, t, s.callers[t], p), t)
  {
  }

  lemma TraceKeepsShape(s: State, after: State, e: Event, t: nat)
    requires CallerShape(s, after, t)
    ensures CallerShape(s, Observed(after, e), t)
  {
  }

  lemma StartShape(s: State, t: nat, a: Action)
    requires WellFormed(s) && t in s.callers
    requires a.Gate? || a.Preflight? || a.Claim? || a.Verify?
    ensures CallerShape(s, CallerStep(s, t, a), t)
  {
  }

  lemma LaunchShape(s: State, t: nat, a: Action)
    requires WellFormed(s) && t in s.callers
    requires a.Spawn? || a.SpawnFails? || a.LauncherReturns? || a.Commit?
    ensures CallerShape(s, CallerStep(s, t, a), t)
  {
  }

  lemma SettleShape(s: State, t: nat, c: Caller, rec: Rec, ok: bool, now: Time)
    requires t in s.callers && s.callers[t] == c && rec.handle < |s.world|
    ensures CallerShape(s, SettleStep(s, t, c, rec, ok, now), t)
  {
    var outcome := if ok then Stopped else StopFailed;
    var base := s.(table := SettleStopIn(s.table, s.world, c.id, rec, ok, now));
    MoveShape(s, base, t, Finished(outcome));
    var moved := To(base, t, c, Finished(outcome));
    TraceKeepsShape(s, moved, StopSucceeded(t, c.id, rec.handle), t);
    TraceKeepsShape(s, moved, StopFailedAlive(t, c.id, rec.handle), t);
  }

  lemma StopShape(s: State, t: nat, a: Action)
    requires WellFormed(s) && t in s.callers
    requires a.BeginStop? || a.HandleStops? || a.SettleStop?
    ensures CallerShape(s, CallerStep(s, t, a), t)
  {
    var c := s.callers[t];
    if a.SettleStop? && c.progress.StopReturned? {
      assert StopHandleOk(c, s.world);
      SettleShape(s, t, c, c.progress.rec, c.progress.ok, a.at);
    }
  }

  lemma CallerStepShape(s: State, t: nat, a: Action)
    requires WellFormed(s) && t in s.callers && ThreadOf(a) == Some(t)
    ensures CallerShape(s, CallerStep(s, t, a), t)
  {
    if a.Gate? || a.Preflight? || a.Claim? || a.Verify? {
      StartShape(s, t, a);
    } else if a.Spawn? || a.SpawnFails? || a.LauncherReturns? || a.Commit? {
      LaunchShape(s, t, a);
    } else {
      StopShape(s, t, a);
    }
  }

  lemma ShapeKeepsPlain(s: State, after: State, t: nat)
    requires PlainKeys(s) && CallerShape(s, after, t)
    ensures PlainKeys(after)
  {
  }

  lemma EnterKeepsPlain(s: State, t: nat, id: string, p: Progress)
    requires PlainKeys(s) && (InStart(p) ==> Plain(id))
    ensures PlainKeys(EnterStep(s, t, id, p))
  {
  }

  lemma ExitKeepsPlain(s: State, h: nat, reason: string)
    requires PlainKeys(s) && Alive(s.world, h)
    ensures PlainKeys(s.(world := s.world[h := s.world[h].(exited := Some(reason))]))
  {
  }

  lemma StepKeepsPlain(s: State, a: Action)
    requires WellFormed(s) && PlainKeys(s) && StartsPlainly(a)
    ensures PlainKeys(Apply(s, a))
  {
    if a.Start? {
      EnterKeepsPlain(s, a.thread, a.id, StartCalled);
    } else if a.Stop? {
      EnterKeepsPlain(s, a.thread, a.id, StopCalled);
    } else if a.Exit? {
      if Alive(s.world, a.handle) { ExitKeepsPlain(s, a.handle, a.reason); }
    } else if !a.Approve? && !a.Look? && a.thread in s.callers {
      CallerStepShape(s, a.thread, a);
      ShapeKeepsPlain(s, CallerStep(s, a.thread, a), a.thread);
    }
  }

  lemma {:induction false} RunKeepsPlain(s: State, actions: seq<Action>)
    requires WellFormed(s) && PlainKeys(s) && forall i :: 0 <= i < |actions| ==> StartsPlainly(actions[i])
    ensures PlainKeys(After(s, actions))
    decreases |actions|
  {
    if actions != [] {
      assert StartsPlainly(actions[0]);
      StepKeepsPlain(s, actions[0]);
      RunKeepsPlain(Apply(s, actions[0]), actions[1..]);
    }
  }

  ghost predicate TwoLive(s: State, server: string) {
    exists g, h :: 0 <= g < h < |s.world| && LiveUnder(s, g, server) && LiveUnder(s, h, server)
  }

  predicate LiveUnder(s: State, h: int, server: string) {
    0 <= h < |s.world| && Alive(s.world, h) && Text.TrimSpace(s.world[h].key) == server
  }

  /** No process is alive that its launcher reported as failed. */
  ghost predicate NothingAbandoned(s: State) {
    forall h :: h in s.abandoned ==> !Alive(s.world, h)
  }

  lemma PlainStatesRunOnce(s: State, server: string)
    requires Reachable(s) && PlainKeys(s) && NothingAbandoned(s)
    ensures !TwoLive(s, server)
  {
    if TwoLive(s, server) {
      var g, h :| 0 <= g < h < |s.world| && LiveUnder(s, g, server) && LiveUnder(s, h, server);
      assert Plain(s.world[g].key) && Plain(s.world[h].key);
      OneLivePerId(s, g, h);
    }
  }

  lemma RunIsReachable(known: set<string>, actions: seq<Action>)
    ensures Reachable(After(Initial(known), actions))
  {
  }

  /**
   At most one live process per server: in every run whose starts spell ids without outer white space and whose
   launchers report no failure for a process that is still alive.
   */
  lemma OneLivePerServer(known: set<string>, actions: seq<Action>, server: string)
    requires forall i :: 0 <= i < |actions| ==> StartsPlainly(actions[i])
    requires NothingAbandoned(After(Initial(known), actions))
    ensures !TwoLive(After(Initial(known), actions), server)
  {
    RunKeepsPlain(Initial(known), actions);
    RunIsReachable(known, actions);
    PlainStatesRunOnce(After(Initial(known), actions), server);
  }
}
