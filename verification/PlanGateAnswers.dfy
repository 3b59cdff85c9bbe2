/**
 What the plan gate answers, read off the trace of everything that happened: which commands it lets through, what it
 says to the others, and when a run leaves a plan behind.
 */
module PlanGateAnswers {
  import opened Wrappers
  import opened PlanGate
  import opened PlanGateSafety
  import Text

  /** The plan of a directory that is less than an hour old. */
  ghost predicate Current(trace: seq<Event>, path: string, record: PlanRecord, now: Time) {
    (exists i :: Standing(trace, i, path, record)) && now - record.createdAt < 3600 * 1000 * 1000 * 1000
  }

  lemma CurrentIsHeld(s: State, path: string, record: PlanRecord, now: Time)
    requires Reachable(s)
    ensures Current(s.trace, path, record, now) <==>
              path in s.plans && s.plans[path] == record && now - record.createdAt < TTL
  {
    ReachableInv(s);
    assert PlanOf(s.trace, path) == if path in s.plans then Some(s.plans[path]) else None;
    PlanOfIsStanding(s.trace, path, record);
  }

  /** Each rejection, and exactly when a command meets it. */
  lemma RejectedExactlyWhen(s: State, c: Command, now: Time)
    requires Reachable(s)
    ensures var r := Consume(s.plans, c, now).1;
            && (r == Err(PlanRequired) <==> forall record :: !Current(s.trace, c.path, record, now))
            && (r == Err(PlanMismatch) <==>
                  exists record :: Current(s.trace, c.path, record, now) && !Agrees(record, c))
            && (r == Err(HashRequired) <==>
                  exists record :: Current(s.trace, c.path, record, now) && Agrees(record, c) && Text.Blank(c.hash))
            && (r == Err(HashMismatch) <==>
                  exists record :: Current(s.trace, c.path, record, now) && Agrees(record, c)
                                   && !Text.Blank(c.hash) && Text.TrimSpace(c.hash) != record.reference.hash)
  {
    forall record ensures Current(s.trace, c.path, record, now) <==>
                            c.path in s.plans && s.plans[c.path] == record && now - record.createdAt < TTL
    {
      CurrentIsHeld(s, c.path, record, now);
    }
    if c.path in s.plans {
      AllowsExactlyTheServed(c.tool, s.plans[c.path].reference.planCommand, c.command);
      RejectionOfHeld(s.plans, c, now);
    }
  }

  lemma RejectionOfHeld(plans: Plans, c: Command, now: Time)
    requires c.path in plans
    requires AllowsMutation(c.tool, plans[c.path].reference.planCommand, c.command)
        <==> PlanServes(c.tool, plans[c.path].reference.planCommand, c.command)
    ensures Validate(plans, c, now) ==
            if now - plans[c.path].createdAt >= TTL then Err(PlanRequired)
            else if !Agrees(plans[c.path], c) then Err(PlanMismatch)
            else if Text.Blank(c.hash) then Err(HashRequired)
            else if Text.TrimSpace(c.hash) != plans[c.path].reference.hash then Err(HashMismatch)
            else Ok(plans[c.path].reference)
  {
  }

  /** Whether a plan that stands fits the command. */
  ghost predicate Covered(trace: seq<Event>, c: Command, now: Time) {
    exists i, record :: Standing(trace, i, c.path, record) && Fits(record, c, now)
  }

  lemma ValidExactlyWhenCovered(s: State, c: Command, now: Time)
    requires Reachable(s)
    ensures Validate(s.plans, c, now).Ok? <==> Covered(s.trace, c, now)
  {
    ReachableInv(s);
    ValidateExactlyWhen(s.plans, s.trace, c, now);
  }

  /**
   The last look before a command runs: without the gate, or for a command that changes nothing, it goes ahead; a gated
   mutation goes ahead exactly if a plan covers it, and uses that plan up; any other one is over.
   */
  lemma AdmittedExactlyWhen(s: State, t: nat, now: Time)
    requires Reachable(s) && t in s.runs && s.runs[t].progress == Started
    ensures var c := s.runs[t].command; var after := Apply(s, Admit(t, now));
            && t in after.runs
            && (if !s.gated || c.command !in MUTATIONS then
                  after.runs[t].progress == Admitted && after.trace == s.trace && after.plans == s.plans
                else if Covered(s.trace, c, now) then
                  && after.runs[t].progress == Admitted && after.trace == s.trace + [Consumed(t, c, now)]
                  && after.plans == s.plans - {c.path}
                else
                  after.runs[t].progress == Finished && after.trace == s.trace && after.plans == s.plans)
  {
    MutationsAndPlans(s.runs[t].command.command);
    ValidExactlyWhenCovered(s, s.runs[t].command, now);
  }

  /**
   The first look refuses a gated mutation exactly if no plan covers it or approval, risk or policies are against it.
   */
  lemma ClearedExactlyWhen(s: State, t: nat, now: Time, proceeds: bool)
    requires Reachable(s) && t in s.runs && s.runs[t].progress == Requested
    ensures var c := s.runs[t].command; var after := Apply(s, Check(t, now, proceeds));
            && t in after.runs && after.trace == s.trace && after.plans == s.plans
            && after.runs[t].progress == (if s.gated && c.command in MUTATIONS
                                             && !(Covered(s.trace, c, now) && proceeds)
                                          then Finished else Cleared)
  {
    MutationsAndPlans(s.runs[t].command.command);
    ValidExactlyWhenCovered(s, s.runs[t].command, now);
  }

  /** A planning command drops the plan its directory had before it starts; no other command does. */
  lemma StartDropsExactlyWhen(s: State, t: nat)
    requires t in s.runs && s.runs[t].progress == Cleared
    ensures var c := s.runs[t].command; var after := Apply(s, Start(t));
            && t in after.runs && after.runs[t].progress == Started
            && (if c.command in PLANNING then
                  after.plans == s.plans - {c.path} && after.trace == s.trace + [Invalidated(c.path)]
                else after.plans == s.plans && after.trace == s.trace)
  {
    MutationsAndPlans(s.runs[t].command.command);
  }

  /**
   A run leaves a plan behind exactly if it made one and succeeded: its own command, tool, environment and connection.
   */
  lemma FinishRecordsExactlyWhen(s: State, t: nat, succeeds: bool, hash: string, now: Time)
    requires t in s.runs && s.runs[t].progress == Executing
    ensures var c := s.runs[t].command; var after := Apply(s, Finish(t, succeeds, hash, now));
            var record := PlanRecord(PlanReference(hash, c.tool, c.env, c.connectionId, c.command), now);
            && t in after.runs && after.runs[t].progress == Finished
            && (if succeeds && c.command in PLANNING then
                  after.plans == s.plans[c.path := record] && after.trace == s.trace + [Recorded(c.path, record)]
                else after.plans == s.plans && after.trace == s.trace)
  {
    MutationsAndPlans(s.runs[t].command.command);
  }

  /** A change of a file takes the plan of its directory with it. */
  lemma ChangeDropsPlan(s: State, path: string)
    ensures Apply(s, ChangeFile(path)).plans == s.plans - {path}
    ensures Apply(s, ChangeFile(path)).trace == s.trace + [Invalidated(path)]
  {
  }

  /**
   The way it is meant to go: once a plan was recorded and its directory left alone, the command that the plan serves is
   covered for an hour by its hash.
   */
  lemma RecordedPlanCovers(s: State, t: nat, hash: string, at: Time, s': State, c: Command, now: Time)
    requires Reachable(s) && t in s.runs && s.runs[t].progress == Executing && s.runs[t].command.command in PLANNING
    requires Reachable(s') && Apply(s, Finish(t, true, hash, at)).trace <= s'.trace
    requires forall m :: |s.trace| < m < |s'.trace| ==> !Touches(s'.trace[m], c.path)
    requires var p := s.runs[t].command;
             && c == p.(command := c.command, hash := c.hash) && PlanServes(p.tool, p.command, c.command)
    requires Text.TrimSpace(c.hash) == hash != "" && now - at < 3600 * 1000 * 1000 * 1000
    ensures Covered(s'.trace, c, now)
  {
    FinishRecordsExactlyWhen(s, t, true, hash, at);
    var p := s.runs[t].command;
    var record := PlanRecord(PlanReference(hash, p.tool, p.env, p.connectionId, p.command), at);
    assert Apply(s, Finish(t, true, hash, at)).trace[|s.trace|] == Recorded(p.path, record);
    assert Standing(s'.trace, |s.trace|, c.path, record);
    assert Fits(record, c, now);
  }
}
