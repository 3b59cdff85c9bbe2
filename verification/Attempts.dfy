/**
 Retries of one tool execution: concurrent requests with one idempotency key share a single callback, finished
 results are replayed from a bounded window, and approval-required outcomes are released so they can be retried.
 Every locked section is one atomic step; the callback runs, and may panic, between two of them.
 */
module Attempts {
  import opened Wrappers
  import opened Utf8
  import opened Framing
  import opened Routing
  import opened ApprovalBinding
  import Text

  const MAX_REPLAY_ENTRIES := 64
  const MAX_KEY_LENGTH := 128
  const MAX_OUTPUT_BYTES := 262144

  datatype AttemptKey = AttemptKey(runId: string, key: string)

  datatype ToolResult = ToolResult(output: Bytes, isError: bool, untrustedOutput: bool, redacted: bool, truncated: bool)

  datatype ExecutionResult = ExecutionResult(decision: Decision, invoked: bool, result: Option<ToolResult>)

  datatype AttemptError =
    | InvalidKey | MalformedRequest | KeyConflict | NoCapacity | ContextEnded
    | CallbackPanicked | InvalidExecution
    | CallbackFailed(text: string)

  type Answer = Result<ExecutionResult, AttemptError>

  /** One attempt record. Waiters keep a reference to it after it has left the table, so records are numbered. */
  datatype Attempt = Attempt(
    owner: nat, key: AttemptKey, fingerprint: Fingerprint,
    closes: nat, released: bool, decision: Decision, invoked: bool, result: Option<ToolResult>,
    err: Option<AttemptError>)
  {
    predicate Done() { closes > 0 }
  }

  /** The state the mutex protects, and every record ever made. */
  datatype Table = Table(entries: map<AttemptKey, nat>, completed: seq<AttemptKey>, maxEntries: nat,
                         records: seq<Attempt>)

  datatype Begun = Conflict | Waits(id: nat) | Owns(id: nat) | Full

  datatype Callback = Returns(value: ExecutionResult) | Fails(text: string) | Panics

  predicate IdempotencyKeyValid(key: string) {
    key != "" && |key| <= MAX_KEY_LENGTH && Text.TrimSpace(key) == key && forall c :: c in key ==> '!' <= c <= '~'
  }

  predicate ToolResultValid(r: ToolResult) {
    r.untrustedOutput && Valid(r.output) && |r.output| <= MAX_OUTPUT_BYTES
  }

  /** A result must be consistent: invoked with a valid result exactly when the decision allowed it. */
  predicate ExecutionValid(x: ExecutionResult) {
    && DecisionValid(x.decision)
    && if x.decision.status != Allowed then !x.invoked && x.result.None?
       else x.invoked && x.result.Some? && ToolResultValid(x.result.value)
  }

  /** What the owner makes of its callback. */
  function Judge(c: Callback): Answer {
    match c
    case Returns(x) => if ExecutionValid(x) then Ok(x) else Err(InvalidExecution)
    case Fails(text) => Err(CallbackFailed(text))
    case Panics => Err(CallbackPanicked)
  }

  function ReplayLimit(maxEntries: int): nat {
    if maxEntries <= 0 then 1 else if maxEntries > MAX_REPLAY_ENTRIES then MAX_REPLAY_ENTRIES else maxEntries
  }

  function NewTable(maxEntries: int): Table {
    Table(map[], [], ReplayLimit(maxEntries), [])
  }

  /** Drop the oldest completed entries until there is room or none is left. */
  function MadeRoom(s: Table): (r: Table)
    ensures |r.completed| <= |s.completed| && r.records == s.records && (WellFormed(s) ==> WellFormed(r))
    decreases |s.completed|
  {
    if |s.entries| >= s.maxEntries && s.completed != [] then
      MadeRoom(s.(completed := s.completed[1..], entries := s.entries - {s.completed[0]}))
    else s
  }

  function Without(keys: seq<AttemptKey>, key: AttemptKey): seq<AttemptKey> {
    if keys == [] then [] else (if keys[0] == key then [] else [keys[0]]) + Without(keys[1..], key)
  }

  function FreshAttempt(owner: nat, key: AttemptKey, fingerprint: Fingerprint): Attempt {
    Attempt(owner, key, fingerprint, 0, false, Deny(InvalidPolicy), false, None, None)
  }

  function Inserted(s: Table, owner: nat, key: AttemptKey, fingerprint: Fingerprint): Table {
    s.(records := s.records + [FreshAttempt(owner, key, fingerprint)], entries := s.entries[key := |s.records|])
  }

  predicate WellFormed(s: Table) {
    forall k :: k in s.entries ==> s.entries[k] < |s.records|
  }

  /** The first locked section: conflict, wait for the owner, or become the owner. */
  function BeginIn(s: Table, owner: nat, key: AttemptKey, fingerprint: Fingerprint): (Table, Begun)
    requires WellFormed(s)
  {
    if key in s.entries then
      var existing := s.records[s.entries[key]];
      if existing.fingerprint != fingerprint then (s, Conflict)
      else if existing.released then
        var cleared := s.(completed := Without(s.completed, key));
        (Inserted(cleared, owner, key, fingerprint), Owns(|s.records|))
      else (s, Waits(s.entries[key]))
    else
      var room := MadeRoom(s);
      if |room.entries| < room.maxEntries then (Inserted(room, owner, key, fingerprint), Owns(|s.records|))
      else (room, Full)
  }

  function Settled(a: Attempt, answer: Answer): Attempt {
    match answer
    case Err(e) => a.(err := Some(e), closes := a.closes + 1)
    case Ok(x) =>
      a.(err := None, decision := x.decision, invoked := x.invoked, result := x.result,
         released := x.decision.status == ApprovalRequired, closes := a.closes + 1)
  }

  /** The second locked section: publish the outcome; only a success stays in the table. */
  function FinishIn(s: Table, key: AttemptKey, id: nat, answer: Answer): Table
    requires id < |s.records|
  {
    var records := s.records[id := Settled(s.records[id], answer)];
    match answer
    case Err(_) => s.(records := records, entries := s.entries - {key})
    case Ok(_) => s.(records := records, completed := s.completed + [key])
  }

  /** What a waiter takes from a finished record. */
  function Replay(a: Attempt): Answer {
    if a.err.Some? then Err(a.err.value) else Ok(ExecutionResult(a.decision, a.invoked, a.result))
  }

  /** The keys a request for `key` pushes out of the replay window. */
  function Evictions(s: Table, key: AttemptKey): seq<AttemptKey> {
    if key in s.entries then [] else s.completed[..|s.completed| - |MadeRoom(s).completed|]
  }

  // ---- The callers ----

  datatype Progress = Waiting(id: nat) | Running(id: nat) | Answered(replayed: bool, answer: Answer)

  datatype Caller = Caller(key: AttemptKey, fingerprint: Fingerprint, progress: Progress)

  datatype Event =
    | Started(thread: nat, key: AttemptKey, fingerprint: Fingerprint, id: nat)
    | Ended(thread: nat, key: AttemptKey, id: nat, answer: Answer)
    | Replayed(thread: nat, key: AttemptKey, fingerprint: Fingerprint, id: nat, answer: Answer)
    | Evicted(keys: seq<AttemptKey>)

  datatype State = State(table: Table, callers: map<nat, Caller>, trace: seq<Event>)

  datatype Action =
    | Request(thread: nat, runId: string, key: string, request: Routing.Request, arguments: Bytes)
    | Complete(thread: nat, callback: Callback)
    | Wake(thread: nat)
    | GiveUp(thread: nat)

  function WithCaller(s: State, t: nat, c: Caller): State {
    s.(callers := s.callers[t := c])
  }

  function RequestStep(s: State, t: nat, key: AttemptKey, fingerprint: Fingerprint): State
    requires WellFormed(s.table)
  {
    var (table, begun) := BeginIn(s.table, t, key, fingerprint);
    var evicted := Evictions(s.table, key);
    var after := s.(table := table, trace := if evicted == [] then s.trace else s.trace + [Evicted(evicted)]);
    match begun
    case Conflict => WithCaller(after, t, Caller(key, fingerprint, Answered(false, Err(KeyConflict))))
    case Full => WithCaller(after, t, Caller(key, fingerprint, Answered(false, Err(NoCapacity))))
    case Waits(id) => WithCaller(after, t, Caller(key, fingerprint, Waiting(id)))
    case Owns(id) =>
      WithCaller(after, t, Caller(key, fingerprint, Running(id)))
        .(trace := after.trace + [Started(t, key, fingerprint, id)])
  }

  function CompleteStep(s: State, t: nat, c: Caller, id: nat, answer: Answer): State
    requires id < |s.table.records|
  {
    WithCaller(s, t, c.(progress := Answered(false, answer)))
      .(table := FinishIn(s.table, c.key, id, answer), trace := s.trace + [Ended(t, c.key, id, answer)])
  }

  function WakeStep(s: State, t: nat, c: Caller, id: nat): State
    requires id < |s.table.records|
  {
    if !s.table.records[id].Done() then s
    else
      var answer := Replay(s.table.records[id]);
      WithCaller(s, t, c.(progress := Answered(true, answer)))
        .(trace := s.trace + [Replayed(t, c.key, c.fingerprint, id, answer)])
  }

  predicate StateWellFormed(s: State) {
    && WellFormed(s.table)
    && forall t :: t in s.callers ==>
         (s.callers[t].progress.Waiting? || s.callers[t].progress.Running?) ==>
           s.callers[t].progress.id < |s.table.records|
  }

  lemma BeginWellFormed(s: Table, owner: nat, key: AttemptKey, fingerprint: Fingerprint)
    requires WellFormed(s)
    ensures var (table, begun) := BeginIn(s, owner, key, fingerprint);
            && WellFormed(table) && |s.records| <= |table.records|
            && ((begun.Waits? || begun.Owns?) ==> begun.id < |table.records|)
  {
  }

  lemma RequestWellFormed(s: State, t: nat, key: AttemptKey, fingerprint: Fingerprint)
    requires StateWellFormed(s)
    ensures StateWellFormed(RequestStep(s, t, key, fingerprint))
  {
    BeginWellFormed(s.table, t, key, fingerprint);
  }

  lemma CompleteWellFormed(s: State, t: nat, c: Caller, id: nat, answer: Answer)
    requires StateWellFormed(s) && id < |s.table.records|
    ensures StateWellFormed(CompleteStep(s, t, c, id, answer))
  {
  }

  function Apply(s: State, a: Action): (r: State)
    requires StateWellFormed(s)
    ensures StateWellFormed(r)
  {
    match a
    case Request(t, runId, key, request, arguments) =>
      if t in s.callers then s
      else
        var k := AttemptKey(runId, key);
        if !IdempotencyKeyValid(key) then WithCaller(s, t, Caller(k, UNKNOWN, Answered(false, Err(InvalidKey))))
        else if !RequestValid(request) || arguments == [] then
          WithCaller(s, t, Caller(k, UNKNOWN, Answered(false, Err(MalformedRequest))))
        else
          RequestWellFormed(s, t, k, RetryFingerprint(request, arguments));
          RequestStep(s, t, k, RetryFingerprint(request, arguments))
    case Complete(t, callback) =>
      if t in s.callers && s.callers[t].progress.Running? then
        CompleteWellFormed(s, t, s.callers[t], s.callers[t].progress.id, Judge(callback));
        CompleteStep(s, t, s.callers[t], s.callers[t].progress.id, Judge(callback))
      else s
    case Wake(t) =>
      if t in s.callers && s.callers[t].progress.Waiting? then WakeStep(s, t, s.callers[t], s.callers[t].progress.id)
      else s
    case GiveUp(t) =>
      if t in s.callers && s.callers[t].progress.Waiting? then
        WithCaller(s, t, s.callers[t].(progress := Answered(true, Err(ContextEnded))))
      else s
  }

  /** The fingerprint of a request that was refused before it had one. */
  const UNKNOWN := Opaque("")

  function Initial(maxEntries: int): State { State(NewTable(maxEntries), map[], []) }

  function After(s: State, actions: seq<Action>): State
    requires StateWellFormed(s)
    decreases |actions|
  {
    if actions == [] then s else After(Apply(s, actions[0]), actions[1..])
  }
}
