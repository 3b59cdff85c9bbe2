/**
 The two ways in which the code can run one server twice, for every input of each kind: an id with outer white space,
 and a launcher that reports a failure for a process that lives on.
 */
module LifecycleTwice {
  import opened Wrappers
  import opened Lifecycle
  import opened LifecycleTheorems
  import Text

  /** A property of states that every step keeps. */
  ghost predicate Closed(P: State -> bool) {
    && (forall x: State :: P(x) ==> WellFormed(x))
    && (forall x: State, a: Action :: P(x) ==> P(Apply(x, a)))
  }

  /** Some run leads from one state to the other. */
  ghost predicate Leads(s0: State, s: State)
    requires WellFormed(s0)
  {
    exists actions: seq<Action> :: s == After(s0, actions)
  }

  lemma {:induction false} AfterSnoc(s: State, actions: seq<Action>, a: Action)
    requires WellFormed(s)
    ensures WellFormed(After(s, actions)) && After(s, actions + [a]) == Apply(After(s, actions), a)
    decreases |actions|
  {
    if actions == [] {
      assert After(Apply(s, a), [a][1..]) == Apply(s, a);
      assert [] + [a] == [a];
    } else {
      assert (actions + [a])[0] == actions[0] && (actions + [a])[1..] == actions[1..] + [a];
      AfterSnoc(Apply(s, actions[0]), actions[1..], a);
    }
  }

  lemma StepLeads(s0: State, s: State, a: Action)
    requires WellFormed(s0) && Leads(s0, s)
    ensures WellFormed(s) && Leads(s0, Apply(s, a))
  {
    var actions: seq<Action> :| s == After(s0, actions);
    AfterSnoc(s0, actions, a);
  }

  lemma LeadsHere(s0: State)
    requires WellFormed(s0)
    ensures Leads(s0, s0)
  {
    assert After(s0, []) == s0;
  }

  lemma LeadsIsClosed(s0: State, P: State -> bool)
    requires WellFormed(s0) && forall x: State :: P(x) <==> Leads(s0, x)
    ensures Closed(P)
  {
    forall x: State | P(x) ensures WellFormed(x) {
      StepLeads(s0, x, Look("", 0));
    }
    forall x: State, a: Action | P(x) ensures P(Apply(x, a)) {
      StepLeads(s0, x, a);
    }
  }

  ghost predicate Idler(s: State, id: string, t: nat) {
    t !in s.callers && Text.TrimSpace(id) in s.known && ActivityOf(s.table, id) == Idle
  }

  lemma StartChecks(P: State -> bool, s: State, t: nat, id: string, fp: Fp) returns (s': State)
    requires Closed(P) && P(s) && Idler(s, id, t)
    ensures P(s') && WellFormed(s') && s'.table == s.table && s'.world == s.world && s'.abandoned == s.abandoned
    ensures s'.known == s.known && s'.approvals == s.approvals[Text.TrimSpace(id) := fp]
    ensures s'.callers == s.callers[t := Caller(id, Checking)]
  {
    var s1 := Apply(s, Approve(Text.TrimSpace(id), fp));
    assert P(s1);
    var s2 := Apply(s1, Start(t, id));
    assert P(s2) && s2.callers[t] == Caller(id, StartCalled);
    s' := Apply(s2, Gate(t, 0));
  }

  lemma StartClaims(P: State -> bool, s: State, t: nat, id: string, fp: Fp) returns (s': State)
    requires Closed(P) && P(s) && t in s.callers && s.callers[t] == Caller(id, Checking)
             && ActivityOf(s.table, id) == Idle
    requires Text.TrimSpace(id) in s.approvals && s.approvals[Text.TrimSpace(id)] == fp
    ensures P(s') && WellFormed(s') && s'.table == s.table.(starting := s.table.starting[id := 0])
    ensures s'.world == s.world && s'.abandoned == s.abandoned && s'.known == s.known && s'.approvals == s.approvals
    ensures s'.callers == s.callers[t := Caller(id, Claimed(Some(fp), 0))]
  {
    var s1 := Apply(s, Preflight(t, true, Some(fp)));
    assert P(s1) && s1.callers[t] == Caller(id, Checked(Report(true, Some(fp), Approved)));
    s' := Apply(s1, Claim(t, 0));
  }

  lemma StartSpawns(P: State -> bool, s: State, t: nat, id: string, fp: Fp) returns (s': State)
    requires Closed(P) && P(s) && t in s.callers && s.callers[t] == Caller(id, Claimed(Some(fp), 0))
    requires Text.TrimSpace(id) in s.approvals && s.approvals[Text.TrimSpace(id)] == fp
    ensures P(s') && WellFormed(s') && s'.table == s.table && s'.known == s.known
    ensures s'.world == s.world + [Process(id, None)] && s'.abandoned == s.abandoned
    ensures s'.callers == s.callers[t := Caller(id, Launching(0, |s.world|))]
  {
    var s1 := Apply(s, Verify(t, Some(fp)));
    assert P(s1) && s1.callers[t] == Caller(id, Verified(fp, 0));
    s' := Apply(s1, Spawn(t));
  }

  lemma StartCommits(P: State -> bool, s: State, t: nat, id: string, h: nat) returns (s': State)
    requires Closed(P) && P(s) && t in s.callers && s.callers[t] == Caller(id, Launching(0, h))
    ensures P(s') && WellFormed(s') && s'.table == CommitIn(s.table, id, Some(Rec(h, 0)))
    ensures s'.world == s.world && s'.abandoned == s.abandoned && s'.known == s.known
    ensures s'.callers == s.callers[t := Caller(id, Finished(StartedNow))]
  {
    var s1 := Apply(s, LauncherReturns(t, true));
    assert P(s1) && s1.callers[t] == Caller(id, LaunchReturned(0, Some(h)));
    s' := Apply(s1, Commit(t));
  }

  /** From any state in which an id is idle, a start of it can go all the way through. */
  lemma IdleCanStart(P: State -> bool, s: State, t: nat, id: string, fp: Fp) returns (s': State)
    requires Closed(P) && P(s) && Idler(s, id, t)
    ensures P(s') && WellFormed(s') && s'.world == s.world + [Process(id, None)] && s'.abandoned == s.abandoned
    ensures s'.known == s.known && s'.table.running == s.table.running[id := Rec(|s.world|, 0)]
    ensures s'.table.stopping == s.table.stopping && s'.table.starting == s.table.starting - {id}
    ensures s'.callers == s.callers[t := Caller(id, Finished(StartedNow))]
  {
    var checked := StartChecks(P, s, t, id, fp);
    var claimed := StartClaims(P, checked, t, id, fp);
    var spawned := StartSpawns(P, claimed, t, id, fp);
    s' := StartCommits(P, spawned, t, id, |s.world|);
    assert s.table.starting[id := 0] - {id} == s.table.starting - {id};
  }

  lemma TwoStarts(P: State -> bool, known: set<string>, server: string, id: string, fp: Fp) returns (s: State)
    requires Closed(P) && P(Initial(known)) && server in known && id != server
    requires Text.TrimSpace(id) == server && Text.TrimSpace(server) == server
    ensures P(s) && s.abandoned == {} && s.world == [Process(server, None), Process(id, None)]
    ensures server in s.table.running && id in s.table.running
  {
    var first := IdleCanStart(P, Initial(known), 0, server, fp);
    s := IdleCanStart(P, first, 1, id, fp);
  }

  /**
   Ids are looked up trimmed but the maps are keyed by the caller's spelling: for every id that is not spelled the way
   its server is defined, some run without any failed launch has a second process of that server on record.
   */
  lemma OtherSpellingsRunTwice(known: set<string>, id: string, fp: Fp)
    requires Text.TrimSpace(id) in known && !Plain(id)
    ensures exists s: State ::
              && Leads(Initial(known), s) && s.abandoned == {}
              && TwoLive(s, Text.TrimSpace(id)) && Text.TrimSpace(id) in s.table.running && id in s.table.running
  {
    Text.TrimSpaceExact(id);
    var P := (x: State) => Leads(Initial(known), x);
    LeadsHere(Initial(known));
    LeadsIsClosed(Initial(known), P);
    var s := TwoStarts(P, known, Text.TrimSpace(id), id, fp);
    assert LiveUnder(s, 0, Text.TrimSpace(id)) && LiveUnder(s, 1, Text.TrimSpace(id));
  }

  /**
   A launcher that reports a failure while its process lives on leaves the id idle, so the next start runs the
   server twice.
   */
  lemma AbandonedProcessesRunTwice(s: State, h: nat, t: nat, fp: Fp)
    requires WellFormed(s) && h in s.abandoned && Alive(s.world, h) && Idler(s, s.world[h].key, t)
    ensures exists s': State :: Leads(s, s') && TwoLive(s', Text.TrimSpace(s.world[h].key))
  {
    var id := s.world[h].key;
    var P := (x: State) => Leads(s, x);
    LeadsHere(s);
    LeadsIsClosed(s, P);
    var s' := IdleCanStart(P, s, t, id, fp);
    assert LiveUnder(s', h, Text.TrimSpace(id)) && LiveUnder(s', |s.world|, Text.TrimSpace(id));
  }

  /** A start whose launcher reports a failure although its process is alive. */
  lemma StartAbandons(P: State -> bool, s: State, t: nat, id: string, h: nat) returns (s': State)
    requires Closed(P) && P(s) && t in s.callers && s.callers[t] == Caller(id, Launching(0, h)) && Alive(s.world, h)
    ensures P(s') && WellFormed(s') && s'.table == CommitIn(s.table, id, None)
    ensures s'.world == s.world && s'.abandoned == s.abandoned + {h} && s'.known == s.known
    ensures s'.callers == s.callers[t := Caller(id, Finished(LaunchFailed))]
  {
    var s1 := Apply(s, LauncherReturns(t, false));
    assert P(s1) && s1.callers[t] == Caller(id, LaunchReturned(0, None));
    s' := Apply(s1, Commit(t));
  }

  lemma AbandonThenStart(P: State -> bool, known: set<string>, id: string, fp: Fp) returns (s: State)
    requires Closed(P) && P(Initial(known)) && Text.TrimSpace(id) in known
    ensures P(s) && s.world == [Process(id, None), Process(id, None)] && s.abandoned == {0}
  {
    var checked := StartChecks(P, Initial(known), 0, id, fp);
    var claimed := StartClaims(P, checked, 0, id, fp);
    var spawned := StartSpawns(P, claimed, 0, id, fp);
    var failed := StartAbandons(P, spawned, 0, id, 0);
    s := IdleCanStart(P, failed, 1, id, fp);
  }

  /**
   Such states are reached: for every known id, plainly spelled or not, some run in which one launcher once reported a
   failure for its live process has that server running twice.
   */
  lemma OneAbandonedLaunchRunsTwice(known: set<string>, id: string, fp: Fp)
    requires Text.TrimSpace(id) in known
    ensures exists s: State ::
              && Leads(Initial(known), s) && s.abandoned == {0} && |s.world| == 2
              && s.world[0].key == s.world[1].key == id && TwoLive(s, Text.TrimSpace(id))
  {
    var P := (x: State) => Leads(Initial(known), x);
    LeadsHere(Initial(known));
    LeadsIsClosed(Initial(known), P);
    var s := AbandonThenStart(P, known, id, fp);
    assert LiveUnder(s, 0, Text.TrimSpace(id)) && LiveUnder(s, 1, Text.TrimSpace(id));
  }
}
