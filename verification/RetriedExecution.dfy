/**
 The retry table over the execution protocol, as the API puts them together: the callback of an attempt is one guarded
 execution, started when the attempt is claimed and asked for its outcome when the attempt is completed. Between any two
 steps of either part any other caller, approver or canceller may act.
 */
module RetriedExecution {
  import opened Wrappers
  import opened Utf8
  import opened ApprovalBinding
  import Routing
  import Retry = Attempts
  import Tools = ToolExecution

  /** One log for both parts, in the order in which things happened. */
  datatype Joint = OfTable(retry: Retry.Event) | OfTools(tool: Tools.Event)

  datatype State = State(table: Retry.State, tools: Tools.State, log: seq<Joint>)

  datatype Action =
    | Request(caller: nat, runId: string, key: string, request: Routing.Request, arguments: Bytes)
    | Tool(action: Tools.Action)                      // a step of an execution, or of anyone else on the run store
    | Complete(caller: nat, result: Retry.ToolResult, text: string, panics: bool)
    | Wake(caller: nat)
    | GiveUp(caller: nat)

  function Grown<E>(before: seq<E>, after: seq<E>): seq<E> {
    if |before| <= |after| then after[|before|..] else []
  }

  function TableLog(events: seq<Retry.Event>): (r: seq<Joint>)
    ensures |r| == |events| && forall i :: 0 <= i < |r| ==> r[i] == OfTable(events[i])
  {
    seq(|events|, i requires 0 <= i < |events| => OfTable(events[i]))
  }

  function ToolLog(events: seq<Tools.Event>): (r: seq<Joint>)
    ensures |r| == |events| && forall i :: 0 <= i < |r| ==> r[i] == OfTools(events[i])
  {
    seq(|events|, i requires 0 <= i < |events| => OfTools(events[i]))
  }

  /** The table moves on, and what it shows is logged. */
  function WithTable(s: State, table: Retry.State): State {
    s.(table := table, log := s.log + TableLog(Grown(s.table.trace, table.trace)))
  }

  function TableStep(s: State, a: Retry.Action): State
    requires Retry.StateWellFormed(s.table)
  {
    WithTable(s, Retry.Apply(s.table, a))
  }

  function ToolStep(s: State, a: Tools.Action): State {
    var tools := Tools.Apply(s.tools, a);
    s.(tools := tools, log := s.log + ToolLog(Grown(s.tools.trace, tools.trace)))
  }

  /** The attempt a caller runs. */
  function Owned(s: State, caller: nat): Option<nat> {
    if caller in s.table.callers && s.table.callers[caller].progress.Running? then
      Some(s.table.callers[caller].progress.id)
    else None
  }

  /** A request that claims an attempt starts its execution, guarded, under the number of the attempt. */
  function RequestStep(s: State, caller: nat, runId: string, key: string, request: Routing.Request,
                       arguments: Bytes): State
    requires Retry.StateWellFormed(s.table)
  {
    var next := TableStep(s, Retry.Request(caller, runId, key, request, arguments));
    if Owned(s, caller).None? && Owned(next, caller).Some? then
      ToolStep(next, Tools.Begin(Owned(next, caller).value, Call(runId, request, arguments), true))
    else next
  }

  /** What the callback of an attempt has come to; nothing as long as its execution is under way. */
  function CallbackOf(s: State, id: nat, result: Retry.ToolResult, text: string, panics: bool): Option<Retry.Callback> {
    var failure := if panics then Retry.Panics else Retry.Fails(text);
    if id !in s.tools.executions then Some(failure)
    else
      match s.tools.executions[id].progress
      case Finished(Executed) => Some(Retry.Returns(Retry.ExecutionResult(Routing.Allow(), true, Some(result))))
      case Finished(Recorded(d)) => Some(Retry.Returns(Retry.ExecutionResult(d, false, None)))
      case Finished(Refused) => Some(failure)
      case _ => None
  }

  function CompleteStep(s: State, caller: nat, result: Retry.ToolResult, text: string, panics: bool): State
    requires Retry.StateWellFormed(s.table)
  {
    if Owned(s, caller).None? then s
    else
      match CallbackOf(s, Owned(s, caller).value, result, text, panics)
      case None => s
      case Some(callback) => TableStep(s, Retry.Complete(caller, callback))
  }

  function Apply(s: State, a: Action): (r: State)
    requires Retry.StateWellFormed(s.table)
    ensures Retry.StateWellFormed(r.table)
  {
    match a
    case Request(t, runId, key, request, arguments) => RequestStep(s, t, runId, key, request, arguments)
    case Tool(action) => if action.Begin? then s else ToolStep(s, action)
    case Complete(t, result, text, panics) => CompleteStep(s, t, result, text, panics)
    case Wake(t) => TableStep(s, Retry.Wake(t))
    case GiveUp(t) => TableStep(s, Retry.GiveUp(t))
  }

  function After(s: State, actions: seq<Action>): (r: State)
    requires Retry.StateWellFormed(s.table)
    ensures Retry.StateWellFormed(r.table)
  {
    if actions == [] then s else Apply(After(s, actions[..|actions| - 1]), actions[|actions| - 1])
  }

  function Initial(key: Bytes, maxRuns: int, maxEntries: int): State {
    State(Retry.Initial(maxEntries), Tools.Initial(key, maxRuns), [])
  }
}
