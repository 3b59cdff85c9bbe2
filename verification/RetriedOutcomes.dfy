/**
 What a retry comes to: the retry table and the executions, taken together, tell the caller what its execution has come
 to, and run the operation again once the approval it had asked for may be there.
 */
module RetriedOutcomes {
  import opened Wrappers
  import opened Utf8
  import opened ApprovalBinding
  import opened RetriedExecution
  import opened RetriedExecutionTheorems
  import Framing
  import AgentRuns
  import Routing
  import Retry = Attempts
  import RetryLaws = AttemptsTheorems
  import Requests = AttemptsRequests
  import Tools = ToolExecution

  // ---- The table is a run of its own ----

  lemma {:induction false} RetrySnoc(s: Retry.State, steps: seq<Retry.Action>, a: Retry.Action)
    requires Retry.StateWellFormed(s)
    ensures Retry.StateWellFormed(Retry.After(s, steps))
    ensures Retry.After(s, steps + [a]) == Retry.Apply(Retry.After(s, steps), a)
    decreases |steps|
  {
    if steps == [] {
      assert [a][1..] == [];
    } else {
      assert (steps + [a])[0] == steps[0] && (steps + [a])[1..] == steps[1..] + [a];
      RetrySnoc(Retry.Apply(s, steps[0]), steps[1..], a);
    }
  }

  lemma StepOfTable(s: State, a: Action) returns (step: Option<Retry.Action>)
    requires Retry.StateWellFormed(s.table)
    ensures RetriedExecution.Apply(s, a).table == if step.None? then s.table else Retry.Apply(s.table, step.value)
  {
    step := None;
    if a.Request? {
      step := Some(Retry.Request(a.caller, a.runId, a.key, a.request, a.arguments));
    } else if a.Wake? {
      step := Some(Retry.Wake(a.caller));
    } else if a.GiveUp? {
      step := Some(Retry.GiveUp(a.caller));
    } else if a.Complete? && Owned(s, a.caller).Some? {
      var callback := CallbackOf(s, Owned(s, a.caller).value, a.result, a.text, a.panics);
      if callback.Some? { step := Some(Retry.Complete(a.caller, callback.value)); }
    }
  }

  /** With the executions taken away, every run is a run of the retry table, so all of its theorems hold here too. */
  lemma {:induction false} TableIsARun(key: Bytes, maxRuns: int, maxEntries: int, actions: seq<Action>)
    ensures exists steps: seq<Retry.Action> ::
              RetriedExecution.After(Initial(key, maxRuns, maxEntries), actions).table
              == Retry.After(Retry.Initial(maxEntries), steps)
  {
    if actions == [] {
      assert Retry.After(Retry.Initial(maxEntries), []) == Retry.Initial(maxEntries);
    } else {
      var before, last := actions[..|actions| - 1], actions[|actions| - 1];
      TableIsARun(key, maxRuns, maxEntries, before);
      var s := RetriedExecution.After(Initial(key, maxRuns, maxEntries), before);
      var steps: seq<Retry.Action> :| s.table == Retry.After(Retry.Initial(maxEntries), steps);
      var step := StepOfTable(s, last);
      if step.Some? { RetrySnoc(Retry.Initial(maxEntries), steps, step.value); }
    }
  }

  lemma TableIsReachable(s: State)
    requires RetriedExecutionTheorems.Reachable(s)
    ensures RetryLaws.Reachable(s.table) && Retry.StateWellFormed(s.table) && RetriedExecutionTheorems.Inv(s)
  {
    var key: Bytes, maxRuns: int, maxEntries: int, actions: seq<Action> :|
      s == RetriedExecution.After(Initial(key, maxRuns, maxEntries), actions);
    TableIsARun(key, maxRuns, maxEntries, actions);
    RetriedExecutionTheorems.ReachableInv(s);
  }

  // ---- What an execution has come to is what its attempt publishes ----

  /** The answer an attempt publishes once its execution is over. */
  ghost predicate Publishes(answer: Retry.Answer, progress: Tools.Progress, result: Retry.ToolResult) {
    match progress
    case Finished(Executed) =>
      if result.untrustedOutput && Valid(result.output) && |result.output| <= 262144 then
        answer == Ok(Retry.ExecutionResult(Routing.Decision(Routing.Allowed, Routing.IsAllowed, true, false, true),
                                           true, Some(result)))
      else answer == Err(Retry.InvalidExecution)
    case Finished(Recorded(d)) =>
      if Routing.DecisionValid(d) && d.status != Routing.Allowed then
        answer == Ok(Retry.ExecutionResult(d, false, None))
      else answer == Err(Retry.InvalidExecution)
    case Finished(Refused) => answer.Err? && answer != Err(Retry.InvalidExecution)
    case _ => false
  }

  lemma CallbackPublishes(s: State, id: nat, result: Retry.ToolResult, text: string, panics: bool)
    requires id in s.tools.executions
    ensures var callback := CallbackOf(s, id, result, text, panics); var p := s.tools.executions[id].progress;
            && (callback.Some? <==> p.Finished?)
            && (callback.Some? ==> Publishes(Retry.Judge(callback.value), p, result))
  {
  }

  /**
   Completing an attempt: nothing happens while its execution is under way; then its owner is told, and the trace shows,
   the recorded decision, the result of the tool if it is a valid one, or a failure.
   */
  lemma CompletionPublishes(s: State, t: nat, id: nat, result: Retry.ToolResult, text: string, panics: bool)
    requires Retry.StateWellFormed(s.table) && Owned(s, t) == Some(id) && id in s.tools.executions
    ensures var after := RetriedExecution.Apply(s, Complete(t, result, text, panics));
            if !s.tools.executions[id].progress.Finished? then after == s
            else
              exists answer :: Publishes(answer, s.tools.executions[id].progress, result)
                && after.table.trace == s.table.trace + [Retry.Ended(t, s.table.callers[t].key, id, answer)]
                && after.table.callers
                   == s.table.callers[t := s.table.callers[t].(progress := Retry.Answered(false, answer))]
  {
    CallbackPublishes(s, id, result, text, panics);
    var callback := CallbackOf(s, id, result, text, panics);
    if callback.Some? {
      Requests.OwnerIsTold(s.table, t, callback.value);
      var answer := Retry.Judge(callback.value);
      assert Publishes(answer, s.tools.executions[id].progress, result);
    }
  }

  // ---- A retry after an approval was asked for ----

  /** A new execution of exactly this call has arrived at the guard, under a number no execution had. */
  ghost predicate Arrives(s: State, after: State, call: Call) {
    exists id: nat :: id !in s.tools.executions
      && after.tools == s.tools.(executions := s.tools.executions[
           id := Tools.Execution(Tools.TicketFor(s.tools.key, call), Tools.Arrived)])
  }

  lemma OwnerArrives(s: State, next: State, t: nat, call: Call)
    requires RetriedExecutionTheorems.Inv(s) && next.tools == s.tools && Owned(next, t).Some?
    requires Owned(next, t).value == |s.table.table.records| && Representable(call)
    ensures Arrives(s, ToolStep(next, Tools.Begin(Owned(next, t).value, call, true)), call)
  {
    var id := Owned(next, t).value;
    var after := ToolStep(next, Tools.Begin(id, call, true));
    assert id !in s.tools.executions;
    assert after.tools == s.tools.(executions := s.tools.executions[
             id := Tools.Execution(Tools.TicketFor(s.tools.key, call), Tools.Arrived)]);
  }

  lemma RunningIsOwned(s: State, t: nat, runId: string, key: string, request: Routing.Request, arguments: Bytes)
    requires Retry.StateWellFormed(s.table) && t !in s.table.callers
    ensures var next := TableStep(s, Retry.Request(t, runId, key, request, arguments));
            && next.tools == s.tools
            && (Owned(next, t).Some? ==> Owned(next, t).value == |s.table.table.records|)
            && (t in next.table.callers && next.table.callers[t].progress.Running? <==> Owned(next, t).Some?)
            && RequestStep(s, t, runId, key, request, arguments) ==
               if Owned(next, t).Some? then
                 ToolStep(next, Tools.Begin(Owned(next, t).value, Call(runId, request, arguments), true))
               else next
  {
    RetriedExecutionTheorems.NewOwner(s.table, t, runId, key, request, arguments);
  }

  /**
   The point of releasing a key: while it is held by an attempt of this very operation that asked for approval, a retry
   under the same key executes the operation once more. While it is held by any other attempt of it, a retry executes
   nothing.
   */
  lemma RetryExecutesExactlyWhen(s: State, t: nat, runId: string, key: string, request: Routing.Request,
                                 arguments: Bytes, a: nat)
    requires RetriedExecutionTheorems.Reachable(s) && Retry.StateWellFormed(s.table) && t !in s.table.callers
    requires Requests.Acceptable(key, request, arguments) && Representable(Call(runId, request, arguments))
    requires Requests.HeldSince(s.table.trace, Retry.AttemptKey(runId, key), a)
    ensures var after := RetriedExecution.Apply(s, Request(t, runId, key, request, arguments));
            if s.table.trace[a].fingerprint == RetryFingerprint(request, arguments)
               && Requests.AskedApproval(s.table.trace, s.table.trace[a].id)
            then Arrives(s, after, Call(runId, request, arguments))
            else after.tools == s.tools
  {
    TableIsReachable(s);
    Requests.HeldKeyAnswers(s.table, t, runId, key, request, arguments, a);
    RunningIsOwned(s, t, runId, key, request, arguments);
    var next := TableStep(s, Retry.Request(t, runId, key, request, arguments));
    if Owned(next, t).Some? { OwnerArrives(s, next, t, Call(runId, request, arguments)); }
  }
}
