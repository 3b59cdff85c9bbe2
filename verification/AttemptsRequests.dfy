/**
 What becomes of a request, told from the trace alone: which attempt a key is held by, whether that attempt asked for
 approval, and so whether the request runs, waits, conflicts or finds no room.
 */
module AttemptsRequests {
  import opened Wrappers
  import opened Utf8
  import opened Framing
  import opened Routing
  import opened ApprovalBinding
  import opened Attempts
  import opened AttemptsSafety
  import opened AttemptsTheorems
  import Text

  // ---- Read off the trace ----

  /** The key is held by the attempt started at `a`: no later start of the key, no failure and no eviction since. */
  ghost predicate HeldSince(trace: seq<Event>, key: AttemptKey, a: int) {
    && 0 <= a < |trace| && trace[a].Started? && trace[a].key == key
    && forall m :: a < m < |trace| ==> !Clears(trace[m], key) && !(trace[m].Started? && trace[m].key == key)
  }

  ghost predicate IsHeld(trace: seq<Event>, key: AttemptKey) { exists a :: HeldSince(trace, key, a) }

  ghost predicate Over(trace: seq<Event>, id: nat) { exists m :: 0 <= m < |trace| && Ends(trace[m], id) }

  predicate AsksApproval(e: Event, id: nat) {
    e.Ended? && e.id == id && e.answer.Ok? && e.answer.value.decision.status == ApprovalRequired
  }

  /** The attempt ended with a decision that approval is required. */
  ghost predicate AskedApproval(trace: seq<Event>, id: nat) {
    exists m :: 0 <= m < |trace| && AsksApproval(trace[m], id)
  }

  ghost predicate EndsBefore(trace: seq<Event>, first: nat, second: nat) {
    exists m, n :: 0 <= m < n < |trace| && Ends(trace[m], first) && Ends(trace[n], second)
  }

  /** The keys that are held. */
  ghost function HeldKeys(trace: seq<Event>): set<AttemptKey> {
    set a | 0 <= a < |trace| && trace[a].Started? && HeldSince(trace, trace[a].key, a) :: trace[a].key
  }

  // ---- The table and the trace ----

  /** The attempt an entry points to is the one its key is held by. */
  ghost predicate EntriesStand(entries: map<AttemptKey, nat>, trace: seq<Event>) {
    forall a :: 0 <= a < |trace| && trace[a].Started? && trace[a].key in entries
                && entries[trace[a].key] == trace[a].id ==>
      HeldSince(trace, trace[a].key, a)
  }

  /** The queue lists the finished keys in the order in which they finished. */
  ghost predicate QueueInOrder(completed: seq<AttemptKey>, entries: map<AttemptKey, nat>, trace: seq<Event>) {
    && (forall k :: k in completed ==> k in entries)
    && (forall i, j :: 0 <= i < j < |completed| ==> EndsBefore(trace, entries[completed[i]], entries[completed[j]]))
  }

  ghost predicate InOrder(s: Table, trace: seq<Event>) {
    EntriesStand(s.entries, trace) && QueueInOrder(s.completed, s.entries, trace)
  }

  lemma HeldAppend(trace: seq<Event>, e: Event, key: AttemptKey, a: int)
    requires a < |trace|
    ensures HeldSince(trace + [e], key, a) <==>
              HeldSince(trace, key, a) && !Clears(e, key) && !(e.Started? && e.key == key)
  {
    var longer := trace + [e];
    assert longer[|trace|] == e;
    if HeldSince(longer, key, a) {
      forall m | a < m < |trace| ensures !Clears(trace[m], key) && !(trace[m].Started? && trace[m].key == key) {
        assert longer[m] == trace[m];
      }
    }
  }

  lemma EndsBeforeAppend(trace: seq<Event>, e: Event, first: nat, second: nat)
    requires EndsBefore(trace, first, second)
    ensures EndsBefore(trace + [e], first, second)
  {
    var m, n :| 0 <= m < n < |trace| && Ends(trace[m], first) && Ends(trace[n], second);
    assert Ends((trace + [e])[m], first) && Ends((trace + [e])[n], second);
  }

  lemma QueueAppend(completed: seq<AttemptKey>, entries: map<AttemptKey, nat>, trace: seq<Event>, e: Event)
    requires QueueInOrder(completed, entries, trace)
    ensures QueueInOrder(completed, entries, trace + [e])
  {
    forall i, j | 0 <= i < j < |completed|
      ensures EndsBefore(trace + [e], entries[completed[i]], entries[completed[j]])
    {
      EndsBeforeAppend(trace, e, entries[completed[i]], entries[completed[j]]);
    }
  }

  /** Entries that keep what they held stand after an event that neither clears nor starts one of theirs. */
  lemma EntriesAppend(entries: map<AttemptKey, nat>, trace: seq<Event>, e: Event, entries': map<AttemptKey, nat>)
    requires EntriesStand(entries, trace)
    requires forall k :: k in entries' ==>
               (k in entries && entries'[k] == entries[k] && !Clears(e, k) && !(e.Started? && e.key == k))
                                           || (e.Started? && e.key == k)
    requires e.Started? ==> forall a :: 0 <= a < |trace| && trace[a].Started? ==> trace[a].id < e.id
    requires e.Started? && e.key in entries' ==> entries'[e.key] == e.id
    ensures EntriesStand(entries', trace + [e])
  {
    var longer := trace + [e];
    forall a | 0 <= a < |longer| && longer[a].Started? && longer[a].key in entries'
           && entries'[longer[a].key] == longer[a].id
      ensures HeldSince(longer, longer[a].key, a)
    {
      if a < |trace| { HeldAppend(trace, e, trace[a].key, a); }
    }
  }

  // ---- One request, on a table in order ----

  /** The table without its oldest finished key. */
  function WithoutOldest(s: Table): Table
    requires s.completed != []
  {
    s.(completed := s.completed[1..], entries := s.entries - {s.completed[0]})
  }

  function Owning(s: State, t: nat, table: Table, key: AttemptKey, fingerprint: Fingerprint, trace: seq<Event>): State {
    WithCaller(s, t, Caller(key, fingerprint, Running(|s.table.records|)))
      .(table := Inserted(table, t, key, fingerprint),
        trace := trace + [Started(t, key, fingerprint, |s.table.records|)])
  }

  lemma HeldRequest(s: State, t: nat, key: AttemptKey, fingerprint: Fingerprint)
    requires TableOk(s.table) && key in s.table.entries
    ensures var held := s.table.records[s.table.entries[key]];
            RequestStep(s, t, key, fingerprint) ==
            if held.fingerprint != fingerprint then
              WithCaller(s, t, Caller(key, fingerprint, Answered(false, Err(KeyConflict))))
            else if held.released then
              Owning(s, t, s.table.(completed := Without(s.table.completed, key)), key, fingerprint, s.trace)
            else WithCaller(s, t, Caller(key, fingerprint, Waiting(s.table.entries[key])))
  {
  }

  lemma NewRequest(s: State, t: nat, key: AttemptKey, fingerprint: Fingerprint)
    requires TableOk(s.table) && key !in s.table.entries
    ensures RequestStep(s, t, key, fingerprint) ==
            if |s.table.entries| < s.table.maxEntries then Owning(s, t, s.table, key, fingerprint, s.trace)
            else if s.table.completed == [] then
              WithCaller(s, t, Caller(key, fingerprint, Answered(false, Err(NoCapacity))))
            else
              Owning(s, t, WithoutOldest(s.table), key, fingerprint, s.trace + [Evicted([s.table.completed[0]])])
  {
    OneEvictionMakesRoom(s.table);
    if |s.table.entries| < s.table.maxEntries {
      assert Evictions(s.table, key) == [];
    } else {
      EvictionsWhenFull(s.table, key);
    }
  }

  // ---- Every step keeps the order ----

  lemma RecordsOfTrace(s: Table, trace: seq<Event>)
    requires LedgerOk(s.entries, s.records, trace)
    ensures forall a :: 0 <= a < |trace| && trace[a].Started? ==> trace[a].id < |s.records|
  {
  }

  lemma StartKeepsOrder(s: Table, trace: seq<Event>, t: nat, key: AttemptKey, fingerprint: Fingerprint)
    requires InOrder(s, trace) && key !in s.completed && WellFormed(s)
    requires forall a :: 0 <= a < |trace| && trace[a].Started? ==> trace[a].id < |s.records|
    ensures InOrder(Inserted(s, t, key, fingerprint), trace + [Started(t, key, fingerprint, |s.records|)])
  {
    var e := Started(t, key, fingerprint, |s.records|);
    EntriesAppend(s.entries, trace, e, s.entries[key := |s.records|]);
    QueueAppend(s.completed, s.entries, trace, e);
  }

  lemma EvictKeepsOrder(s: Table, trace: seq<Event>)
    requires InOrder(s, trace) && s.completed != [] && Distinct(s.completed)
    ensures InOrder(WithoutOldest(s), trace + [Evicted([s.completed[0]])])
  {
    var k := s.completed[0];
    var e := Evicted([k]);
    DistinctTail(s.completed);
    EntriesAppend(s.entries, trace, e, s.entries - {k});
    QueueAppend(s.completed, s.entries, trace, e);
    TailQueue(s.completed, s.entries, trace + [e]);
  }

  lemma TailQueue(completed: seq<AttemptKey>, entries: map<AttemptKey, nat>, trace: seq<Event>)
    requires QueueInOrder(completed, entries, trace) && completed != [] && completed[0] !in completed[1..]
    ensures QueueInOrder(completed[1..], entries - {completed[0]}, trace)
  {
    var rest := completed[1..];
    assert forall i :: 0 <= i < |rest| ==> rest[i] == completed[i + 1];
  }

  /** The entries of the filtered queue are entries of the queue, in the same order. */
  lemma {:induction false} WithoutKeepsOrder(keys: seq<AttemptKey>, key: AttemptKey, i: nat, j: nat)
      returns (i': nat, j': nat)
    requires i < j < |Without(keys, key)|
    ensures i' < j' < |keys| && keys[i'] == Without(keys, key)[i] && keys[j'] == Without(keys, key)[j]
  {
    var rest := Without(keys[1..], key);
    if keys[0] == key {
      i', j' := WithoutKeepsOrder(keys[1..], key, i, j);
      i', j' := i' + 1, j' + 1;
    } else if i > 0 {
      i', j' := WithoutKeepsOrder(keys[1..], key, i - 1, j - 1);
      i', j' := i' + 1, j' + 1;
    } else {
      assert rest[j - 1] in rest;
      WithoutHas(keys[1..], key);
      var n :| 0 <= n < |keys[1..]| && keys[1..][n] == rest[j - 1];
      i', j' := 0, n + 1;
    }
  }

  lemma FilteredQueue(completed: seq<AttemptKey>, entries: map<AttemptKey, nat>, trace: seq<Event>, key: AttemptKey)
    requires QueueInOrder(completed, entries, trace)
    ensures QueueInOrder(Without(completed, key), entries, trace) && key !in Without(completed, key)
  {
    WithoutHas(completed, key);
    var kept := Without(completed, key);
    forall i, j | 0 <= i < j < |kept| ensures EndsBefore(trace, entries[kept[i]], entries[kept[j]]) {
      var i', j' := WithoutKeepsOrder(completed, key, i, j);
    }
  }

  lemma HeldRequestKeepsOrder(s: State, t: nat, key: AttemptKey, fingerprint: Fingerprint)
    requires TableOk(s.table) && LedgerOk(s.table.entries, s.table.records, s.trace) && InOrder(s.table, s.trace)
    ensures var cleared := s.table.(completed := Without(s.table.completed, key));
            InOrder(Inserted(cleared, t, key, fingerprint), s.trace + [Started(t, key, fingerprint, |s.table.records|)])
  {
    RecordsOfTrace(s.table, s.trace);
    FilteredQueue(s.table.completed, s.table.entries, s.trace, key);
    StartKeepsOrder(s.table.(completed := Without(s.table.completed, key)), s.trace, t, key, fingerprint);
  }

  lemma FullRequestKeepsOrder(s: State, t: nat, key: AttemptKey, fingerprint: Fingerprint)
    requires TableOk(s.table) && LedgerOk(s.table.entries, s.table.records, s.trace) && InOrder(s.table, s.trace)
    requires key !in s.table.entries && s.table.completed != []
    ensures InOrder(Inserted(WithoutOldest(s.table), t, key, fingerprint),
                    s.trace + [Evicted([s.table.completed[0]])] + [Started(t, key, fingerprint, |s.table.records|)])
  {
    RecordsOfTrace(s.table, s.trace);
    EvictKeepsOrder(s.table, s.trace);
    StartKeepsOrder(WithoutOldest(s.table), s.trace + [Evicted([s.table.completed[0]])], t, key, fingerprint);
  }

  lemma RequestKeepsOrder(s: State, t: nat, key: AttemptKey, fingerprint: Fingerprint)
    requires TableOk(s.table) && LedgerOk(s.table.entries, s.table.records, s.trace) && InOrder(s.table, s.trace)
    ensures var after := RequestStep(s, t, key, fingerprint); InOrder(after.table, after.trace)
  {
    if key in s.table.entries {
      HeldRequest(s, t, key, fingerprint);
      HeldRequestKeepsOrder(s, t, key, fingerprint);
    } else {
      NewRequest(s, t, key, fingerprint);
      if |s.table.entries| < s.table.maxEntries {
        RecordsOfTrace(s.table, s.trace);
        StartKeepsOrder(s.table, s.trace, t, key, fingerprint);
      } else if s.table.completed != [] {
        FullRequestKeepsOrder(s, t, key, fingerprint);
      }
    }
  }

  lemma FinishedIsOver(s: Table, trace: seq<Event>, k: AttemptKey)
    requires TableOk(s) && LedgerOk(s.entries, s.records, trace) && k in s.completed
    ensures k in s.entries && Over(trace, s.entries[k])
  {
    var id := s.entries[k];
    assert StartSeen(s.records[id], id, trace);
    var a :| 0 <= a < |trace| && StartsRecord(trace[a], s.records[id], id);
    assert EndedAfter(trace, a, id);
  }

  lemma FinishKeepsOrder(s: Table, trace: seq<Event>, t: nat, id: nat, answer: Answer)
    requires TableOk(s) && LedgerOk(s.entries, s.records, trace) && InOrder(s, trace)
    requires id < |s.records| && !s.records[id].Done()
    ensures var key := s.records[id].key;
            InOrder(FinishIn(s, key, id, answer), trace + [Ended(t, key, id, answer)])
  {
    var key := s.records[id].key;
    var e := Ended(t, key, id, answer);
    QueueAppend(s.completed, s.entries, trace, e);
    assert key in s.entries && s.entries[key] == id && key !in s.completed;
    if answer.Err? {
      EntriesAppend(s.entries, trace, e, s.entries - {key});
    } else {
      EntriesAppend(s.entries, trace, e, s.entries);
      LastInQueue(s, trace, e);
    }
  }

  lemma LastInQueue(s: Table, trace: seq<Event>, e: Event)
    requires TableOk(s) && LedgerOk(s.entries, s.records, trace) && QueueInOrder(s.completed, s.entries, trace + [e])
    requires e.Ended? && e.key in s.entries && s.entries[e.key] == e.id
    ensures QueueInOrder(s.completed + [e.key], s.entries, trace + [e])
  {
    var queue := s.completed + [e.key];
    forall i, j | 0 <= i < j < |queue| ensures EndsBefore(trace + [e], s.entries[queue[i]], s.entries[queue[j]]) {
      if j == |s.completed| {
        assert s.completed[i] in s.completed;
        FinishedIsOver(s, trace, s.completed[i]);
        var m :| 0 <= m < |trace| && Ends(trace[m], s.entries[s.completed[i]]);
        assert Ends((trace + [e])[m], s.entries[queue[i]]) && Ends((trace + [e])[|trace|], e.id);
      }
    }
  }

  lemma StepKeepsOrder(s: State, a: Action)
    requires AttemptsTheorems.Inv(s) && StateWellFormed(s) && InOrder(s.table, s.trace)
    ensures InOrder(Attempts.Apply(s, a).table, Attempts.Apply(s, a).trace)
  {
    if a.Request? {
      if a.thread !in s.callers {
        RequestKeepsOrder(s, a.thread, AttemptKey(a.runId, a.key), RetryFingerprint(a.request, a.arguments));
      }
    } else if a.Complete? {
      if a.thread in s.callers && s.callers[a.thread].progress.Running? {
        assert CallerOk(s.table.records, a.thread, s.callers[a.thread]);
        FinishKeepsOrder(s.table, s.trace, a.thread, s.callers[a.thread].progress.id, Judge(a.callback));
      }
    } else if a.Wake? && a.thread in s.callers && s.callers[a.thread].progress.Waiting? {
      var c := s.callers[a.thread];
      var e := Replayed(a.thread, c.key, c.fingerprint, c.progress.id, Replay(s.table.records[c.progress.id]));
      EntriesAppend(s.table.entries, s.trace, e, s.table.entries);
      QueueAppend(s.table.completed, s.table.entries, s.trace, e);
    }
  }

  lemma {:induction false} RunKeepsOrder(s: State, actions: seq<Action>)
    requires AttemptsTheorems.Inv(s) && StateWellFormed(s) && InOrder(s.table, s.trace)
    ensures InOrder(Attempts.After(s, actions).table, Attempts.After(s, actions).trace)
    decreases |actions|
  {
    if actions != [] {
      AttemptsTheorems.StepKeeps(s, actions[0]);
      StepKeepsOrder(s, actions[0]);
      RunKeepsOrder(Attempts.Apply(s, actions[0]), actions[1..]);
    }
  }

  lemma InitialOrder(maxEntries: int)
    ensures InOrder(NewTable(maxEntries), []) && TableOk(NewTable(maxEntries))
    ensures LedgerOk(map[], [], []) && CallersOk([], map[])
  {
  }

  lemma InitialInv(maxEntries: int)
    ensures AttemptsTheorems.Inv(Initial(maxEntries)) && StateWellFormed(Initial(maxEntries))
    ensures InOrder(Initial(maxEntries).table, Initial(maxEntries).trace)
  {
    InitialOrder(maxEntries);
  }

  lemma ReachableOrder(s: State)
    requires AttemptsTheorems.Reachable(s)
    ensures AttemptsTheorems.Inv(s) && InOrder(s.table, s.trace)
  {
    AttemptsTheorems.ReachableInv(s);
    var maxEntries: int, actions: seq<Action> :| s == Attempts.After(Initial(maxEntries), actions);
    InitialInv(maxEntries);
    RunKeepsOrder(Initial(maxEntries), actions);
  }

  // ---- The trace tells what the table holds ----

  lemma HolderStarted(entries: map<AttemptKey, nat>, records: seq<Attempt>, trace: seq<Event>, key: AttemptKey)
      returns (a: nat)
    requires EntriesStand(entries, trace) && key in entries && entries[key] < |records|
             && records[entries[key]].key == key
    requires StartSeen(records[entries[key]], entries[key], trace)
    ensures HeldSince(trace, key, a) && trace[a].id == entries[key]
  {
    var id := entries[key];
    a :| 0 <= a < |trace| && StartsRecord(trace[a], records[id], id);
  }

  lemma EntryIsHeld(s: State, key: AttemptKey) returns (a: nat)
    requires AttemptsTheorems.Inv(s) && InOrder(s.table, s.trace) && key in s.table.entries
    ensures HeldSince(s.trace, key, a) && s.trace[a].id == s.table.entries[key]
  {
    a := HolderStarted(s.table.entries, s.table.records, s.trace, key);
  }

  lemma HeldHasEntry(s: State, key: AttemptKey, a: nat)
    requires AttemptsTheorems.Inv(s) && InOrder(s.table, s.trace) && HeldSince(s.trace, key, a)
    ensures key in s.table.entries && s.table.entries[key] == s.trace[a].id < |s.table.records|
    ensures s.table.records[s.trace[a].id].fingerprint == s.trace[a].fingerprint
  {
    assert !ClearedAfter(s.trace, a, key);
    assert Holds(s.table.entries, s.table.records, key, s.trace[a].fingerprint);
    var b := EntryIsHeld(s, key);
    assert a == b;
  }

  lemma DoneIsOver(s: State, a: nat)
    requires AttemptsTheorems.Inv(s) && a < |s.trace| && s.trace[a].Started?
    ensures s.trace[a].id < |s.table.records|
    ensures s.table.records[s.trace[a].id].Done() <==> Over(s.trace, s.trace[a].id)
  {
    var id := s.trace[a].id;
    if s.table.records[id].Done() {
      assert EndedAfter(s.trace, a, id);
    }
  }

  lemma ReleasedAskedApproval(s: State, a: nat)
    requires AttemptsTheorems.Inv(s) && a < |s.trace| && s.trace[a].Started?
    ensures s.trace[a].id < |s.table.records|
    ensures s.table.records[s.trace[a].id].released <==> AskedApproval(s.trace, s.trace[a].id)
  {
    var id := s.trace[a].id;
    var record := s.table.records[id];
    assert RecordOk(record);
    if record.released {
      DoneIsOver(s, a);
      var m :| 0 <= m < |s.trace| && Ends(s.trace[m], id);
      assert s.trace[m].answer == Replay(record);
      assert AsksApproval(s.trace[m], id);
    }
    if m :| 0 <= m < |s.trace| && AsksApproval(s.trace[m], id) {
      assert s.trace[m].answer == Replay(record);
    }
  }

  lemma HeldKeysAreEntries(s: State)
    requires AttemptsTheorems.Inv(s) && InOrder(s.table, s.trace)
    ensures HeldKeys(s.trace) == s.table.entries.Keys
  {
    forall k | k in s.table.entries ensures k in HeldKeys(s.trace) {
      var a := EntryIsHeld(s, k);
    }
    forall k | k in HeldKeys(s.trace) ensures k in s.table.entries {
      var a :| 0 <= a < |s.trace| && s.trace[a].Started? && HeldSince(s.trace, s.trace[a].key, a)
               && s.trace[a].key == k;
      HeldHasEntry(s, k, a);
    }
  }

  // ---- The theorems ----

  /** The request passes the checks made before the lock. */
  predicate Acceptable(key: string, request: Routing.Request, arguments: Bytes) {
    IdempotencyKeyValid(key) && RequestValid(request) && arguments != []
  }

  /** The caller runs a new attempt, with a number no attempt had before. */
  ghost predicate RunsAnew(s: State, after: State, t: nat, key: AttemptKey, fingerprint: Fingerprint,
                           trace: seq<Event>)
  {
    exists id: nat ::
      && after.trace == trace + [Started(t, key, fingerprint, id)]
      && (forall a :: 0 <= a < |s.trace| && s.trace[a].Started? ==> s.trace[a].id < id)
      && t in after.callers && after.callers[t].progress == Running(id)
  }

  /**
   A key that is held: another operation conflicts; the same operation runs again exactly if the attempt that holds the
   key asked for approval, and otherwise waits for that attempt.
   */
  lemma HeldKeyAnswers(s: State, t: nat, runId: string, key: string, request: Routing.Request, arguments: Bytes, a: nat)
    requires AttemptsTheorems.Reachable(s) && StateWellFormed(s) && t !in s.callers
             && Acceptable(key, request, arguments)
    requires HeldSince(s.trace, AttemptKey(runId, key), a)
    ensures var k, f := AttemptKey(runId, key), RetryFingerprint(request, arguments);
            var after := Attempts.Apply(s, Attempts.Request(t, runId, key, request, arguments));
            && t in after.callers
            && (if s.trace[a].fingerprint != f then
                  after.callers[t].progress == Answered(false, Err(KeyConflict)) && after.trace == s.trace
                else if AskedApproval(s.trace, s.trace[a].id) then RunsAnew(s, after, t, k, f, s.trace)
                else after.callers[t].progress == Waiting(s.trace[a].id) && after.trace == s.trace)
  {
    ReachableOrder(s);
    var k, f := AttemptKey(runId, key), RetryFingerprint(request, arguments);
    AcceptedIsStep(s, t, runId, key, request, arguments);
    HeldHasEntry(s, k, a);
    ReleasedAskedApproval(s, a);
    RecordsOfTrace(s.table, s.trace);
    HeldRequest(s, t, k, f);
    HeldTells(s, RequestStep(s, t, k, f), t, k, f, a);
  }

  lemma AcceptedIsStep(s: State, t: nat, runId: string, key: string, request: Routing.Request, arguments: Bytes)
    requires StateWellFormed(s) && t !in s.callers && Acceptable(key, request, arguments)
    ensures Attempts.Apply(s, Attempts.Request(t, runId, key, request, arguments)) ==
            RequestStep(s, t, AttemptKey(runId, key), RetryFingerprint(request, arguments))
  {
  }

  lemma HeldTells(s: State, after: State, t: nat, k: AttemptKey, f: Fingerprint, a: nat)
    requires a < |s.trace| && s.trace[a].Started? && k in s.table.entries
    requires s.table.entries[k] == s.trace[a].id < |s.table.records|
    requires s.table.records[s.trace[a].id].fingerprint == s.trace[a].fingerprint
    requires s.table.records[s.trace[a].id].released <==> AskedApproval(s.trace, s.trace[a].id)
    requires forall b :: 0 <= b < |s.trace| && s.trace[b].Started? ==> s.trace[b].id < |s.table.records|
    requires after == if s.table.records[s.trace[a].id].fingerprint != f then
                        WithCaller(s, t, Caller(k, f, Answered(false, Err(KeyConflict))))
                      else if s.table.records[s.trace[a].id].released then
                        Owning(s, t, s.table.(completed := Without(s.table.completed, k)), k, f, s.trace)
                      else WithCaller(s, t, Caller(k, f, Waiting(s.table.entries[k])))
    ensures t in after.callers
    ensures if s.trace[a].fingerprint != f then
              after.callers[t].progress == Answered(false, Err(KeyConflict)) && after.trace == s.trace
            else if AskedApproval(s.trace, s.trace[a].id) then RunsAnew(s, after, t, k, f, s.trace)
            else after.callers[t].progress == Waiting(s.trace[a].id) && after.trace == s.trace
  {
    if s.trace[a].fingerprint == f && s.table.records[s.trace[a].id].released {
      OwnerRunsAnew(s, t, s.table.(completed := Without(s.table.completed, k)), k, f, s.trace);
    }
  }

  lemma OwnerRunsAnew(s: State, t: nat, table: Table, k: AttemptKey, f: Fingerprint, trace: seq<Event>)
    requires forall b :: 0 <= b < |s.trace| && s.trace[b].Started? ==> s.trace[b].id < |s.table.records|
    ensures RunsAnew(s, Owning(s, t, table, k, f, trace), t, k, f, trace)
  {
    assert Owning(s, t, table, k, f, trace).trace == trace + [Started(t, k, f, |s.table.records|)];
  }

  /** A held key whose attempt has ended, and ended before every other such key's attempt. */
  ghost predicate OldestFinished(trace: seq<Event>, key: AttemptKey) {
    exists a :: HeldSince(trace, key, a) && Over(trace, trace[a].id)
      && forall b :: 0 <= b < |trace| && trace[b].Started? && trace[b].key != key && HeldSince(trace, trace[b].key, b)
                     && Over(trace, trace[b].id) ==>
           EndsBefore(trace, trace[a].id, trace[b].id)
  }

  ghost predicate SomeFinished(trace: seq<Event>) {
    exists k :: k in HeldKeys(trace) && exists a :: HeldSince(trace, k, a) && Over(trace, trace[a].id)
  }

  lemma QueueIsFinished(s: State, k: AttemptKey)
    requires AttemptsTheorems.Inv(s) && InOrder(s.table, s.trace)
    ensures k in s.table.completed <==> exists a :: HeldSince(s.trace, k, a) && Over(s.trace, s.trace[a].id)
  {
    if k in s.table.completed {
      var a := EntryIsHeld(s, k);
      DoneIsOver(s, a);
    }
    if a :| HeldSince(s.trace, k, a) && Over(s.trace, s.trace[a].id) {
      HeldHasEntry(s, k, a);
      DoneIsOver(s, a);
    }
  }

  lemma FirstIsOldest(s: State)
    requires AttemptsTheorems.Inv(s) && InOrder(s.table, s.trace) && s.table.completed != []
    ensures OldestFinished(s.trace, s.table.completed[0])
  {
    var k := s.table.completed[0];
    assert k in s.table.completed;
    var a := EntryIsHeld(s, k);
    DoneIsOver(s, a);
    forall b | 0 <= b < |s.trace| && s.trace[b].Started? && s.trace[b].key != k && HeldSince(s.trace, s.trace[b].key, b)
               && Over(s.trace, s.trace[b].id)
      ensures EndsBefore(s.trace, s.trace[a].id, s.trace[b].id)
    {
      QueueIsFinished(s, s.trace[b].key);
      HeldHasEntry(s, s.trace[b].key, b);
      var j :| 0 <= j < |s.table.completed| && s.table.completed[j] == s.trace[b].key;
      assert EndsBefore(s.trace, s.table.entries[s.table.completed[0]], s.table.entries[s.table.completed[j]]);
    }
  }

  lemma FinishedExactlyWhenQueued(s: State)
    requires AttemptsTheorems.Inv(s) && InOrder(s.table, s.trace)
    ensures SomeFinished(s.trace) <==> s.table.completed != []
  {
    HeldKeysAreEntries(s);
    if s.table.completed != [] {
      var k := s.table.completed[0];
      assert k in s.table.completed;
      QueueIsFinished(s, k);
      assert k in HeldKeys(s.trace);
    }
    if k :| k in HeldKeys(s.trace) && exists a :: HeldSince(s.trace, k, a) && Over(s.trace, s.trace[a].id) {
      QueueIsFinished(s, k);
    }
  }

  /**
   A key that is not held runs at once if fewer keys are held than the limit; else exactly if some held key is finished,
   and then the one that finished first is evicted for it; else there is no room.
   */
  lemma FreeKeyAnswers(s: State, t: nat, runId: string, key: string, request: Routing.Request, arguments: Bytes)
    requires AttemptsTheorems.Reachable(s) && StateWellFormed(s) && t !in s.callers
             && Acceptable(key, request, arguments)
    requires !IsHeld(s.trace, AttemptKey(runId, key))
    ensures var k, f := AttemptKey(runId, key), RetryFingerprint(request, arguments);
            var after := Attempts.Apply(s, Attempts.Request(t, runId, key, request, arguments));
            && t in after.callers
            && (if |HeldKeys(s.trace)| < s.table.maxEntries then RunsAnew(s, after, t, k, f, s.trace)
                else if SomeFinished(s.trace) then
                  exists oldest ::
                    OldestFinished(s.trace, oldest) && RunsAnew(s, after, t, k, f, s.trace + [Evicted([oldest])])
                else after.callers[t].progress == Answered(false, Err(NoCapacity)) && after.trace == s.trace)
  {
    ReachableOrder(s);
    var k, f := AttemptKey(runId, key), RetryFingerprint(request, arguments);
    AcceptedIsStep(s, t, runId, key, request, arguments);
    if k in s.table.entries { var a := EntryIsHeld(s, k); }
    HeldKeysAreEntries(s);
    FinishedExactlyWhenQueued(s);
    RecordsOfTrace(s.table, s.trace);
    if s.table.completed != [] { FirstIsOldest(s); }
    NewRequest(s, t, k, f);
    FreeTells(s, RequestStep(s, t, k, f), t, k, f);
  }

  lemma FreeTells(s: State, after: State, t: nat, k: AttemptKey, f: Fingerprint)
    requires HeldKeys(s.trace) == s.table.entries.Keys && (SomeFinished(s.trace) <==> s.table.completed != [])
    requires s.table.completed != [] ==> OldestFinished(s.trace, s.table.completed[0])
    requires forall b :: 0 <= b < |s.trace| && s.trace[b].Started? ==> s.trace[b].id < |s.table.records|
    requires after == if |s.table.entries| < s.table.maxEntries then Owning(s, t, s.table, k, f, s.trace)
                      else if s.table.completed == [] then
                        WithCaller(s, t, Caller(k, f, Answered(false, Err(NoCapacity))))
                      else Owning(s, t, WithoutOldest(s.table), k, f, s.trace + [Evicted([s.table.completed[0]])])
    ensures t in after.callers
    ensures if |HeldKeys(s.trace)| < s.table.maxEntries then RunsAnew(s, after, t, k, f, s.trace)
            else if SomeFinished(s.trace) then
              exists oldest ::
                OldestFinished(s.trace, oldest) && RunsAnew(s, after, t, k, f, s.trace + [Evicted([oldest])])
            else after.callers[t].progress == Answered(false, Err(NoCapacity)) && after.trace == s.trace
  {
    assert |s.table.entries.Keys| == |s.table.entries|;
    if |s.table.entries| < s.table.maxEntries {
      OwnerRunsAnew(s, t, s.table, k, f, s.trace);
    } else if s.table.completed != [] {
      OwnerRunsAnew(s, t, WithoutOldest(s.table), k, f, s.trace + [Evicted([s.table.completed[0]])]);
    }
  }

  // ---- What the callers are told ----

  /** One to 128 printable bytes without a space. */
  lemma KeysAreChecked(key: string)
    ensures IdempotencyKeyValid(key) <==> 1 <= |key| <= 128 && forall c :: c in key ==> 33 <= c as int <= 126
  {
    Text.TrimSpaceExact(key);
    if key != "" { assert key[0] in key && key[|key| - 1] in key; }
  }

  /** A request that is not acceptable is answered at once and touches nothing. */
  lemma UnacceptableIsRefused(s: State, t: nat, runId: string, key: string, request: Routing.Request, arguments: Bytes)
    requires StateWellFormed(s) && t !in s.callers && !Acceptable(key, request, arguments)
    ensures var after := Attempts.Apply(s, Attempts.Request(t, runId, key, request, arguments));
            && t in after.callers && after.table == s.table && after.trace == s.trace
            && after.callers[t].progress ==
               Answered(false, Err(if IdempotencyKeyValid(key) then MalformedRequest else InvalidKey))
  {
  }

  /** An execution result whose parts belong together: the tool was called exactly if the decision allowed it. */
  predicate Coherent(x: ExecutionResult) {
    || (&& x.decision == Decision(Allowed, IsAllowed, true, false, true) && x.invoked && x.result.Some?
        && x.result.value.untrustedOutput && Valid(x.result.value.output) && |x.result.value.output| <= 262144)
    || (&& (x.decision == Decision(ApprovalRequired, NeedsApproval, false, true, true)
            || (x.decision == Deny(x.decision.reason) && DeniedReason(x.decision.reason)))
        && !x.invoked && x.result.None?)
  }

  /** What the owner and everybody waiting for it will be told. */
  lemma JudgesExactly(callback: Callback)
    ensures Judge(callback) == match callback
                               case Returns(x) => (if Coherent(x) then Ok(x) else Err(InvalidExecution))
                               case Fails(text) => Err(CallbackFailed(text))
                               case Panics => Err(CallbackPanicked)
  {
  }

  /**
   The end of an attempt: its owner is told the answer, and so is the trace, under the key and number of the attempt.
   */
  lemma OwnerIsTold(s: State, t: nat, callback: Callback)
    requires StateWellFormed(s) && t in s.callers && s.callers[t].progress.Running?
    ensures var after := Attempts.Apply(s, Complete(t, callback));
            var id, answer := s.callers[t].progress.id, Judge(callback);
            && after.callers == s.callers[t := s.callers[t].(progress := Answered(false, answer))]
            && after.trace == s.trace + [Ended(t, s.callers[t].key, id, answer)]
  {
  }

  /** A waiter that looks is told exactly the answer its attempt ended with, and nothing before it has ended. */
  lemma WaiterIsTold(s: State, t: nat)
    requires AttemptsTheorems.Reachable(s) && StateWellFormed(s) && t in s.callers && s.callers[t].progress.Waiting?
    ensures var id := s.callers[t].progress.id; var after := Attempts.Apply(s, Wake(t));
            if Over(s.trace, id) then
              exists m :: 0 <= m < |s.trace| && Ends(s.trace[m], id)
                && after.callers == s.callers[t := s.callers[t].(progress := Answered(true, s.trace[m].answer))]
                && after.table == s.table
            else after == s
  {
    ReachableOrder(s);
    var id := s.callers[t].progress.id;
    assert CallerOk(s.table.records, t, s.callers[t]);
    RecordTellsTrace(s, id);
    WakeIs(s, t, s.callers[t], id);
    if m :| 0 <= m < |s.trace| && Ends(s.trace[m], id) { assert s.trace[m].answer == Replay(s.table.records[id]); }
  }

  lemma WakeIs(s: State, t: nat, c: Caller, id: nat)
    requires StateWellFormed(s) && t in s.callers && s.callers[t] == c && c.progress == Waiting(id)
    ensures id < |s.table.records|
    ensures var after := Attempts.Apply(s, Wake(t));
            if s.table.records[id].Done() then
              && after.callers == s.callers[t := c.(progress := Answered(true, Replay(s.table.records[id])))]
              && after.table == s.table
            else after == s
  {
  }

  lemma RecordTellsTrace(s: State, id: nat)
    requires AttemptsTheorems.Inv(s) && id < |s.table.records|
    ensures s.table.records[id].Done() <==> Over(s.trace, id)
    ensures forall m :: 0 <= m < |s.trace| && Ends(s.trace[m], id) ==> s.trace[m].answer == Replay(s.table.records[id])
  {
    var a := RecordStarted(s.table.records, s.trace, id);
    DoneIsOver(s, a);
  }

  lemma RecordStarted(records: seq<Attempt>, trace: seq<Event>, id: nat) returns (a: nat)
    requires Traced(records, trace) && id < |records|
    ensures a < |trace| && trace[a].Started? && trace[a].id == id
  {
    assert StartSeen(records[id], id, trace);
    a :| 0 <= a < |trace| && StartsRecord(trace[a], records[id], id);
  }

  /** A waiter whose own context ends leaves without an answer; the attempt goes on. */
  lemma WaiterGivesUp(s: State, t: nat)
    requires StateWellFormed(s) && t in s.callers && s.callers[t].progress.Waiting?
    ensures Attempts.Apply(s, GiveUp(t)) ==
            s.(callers := s.callers[t := s.callers[t].(progress := Answered(true, Err(ContextEnded)))])
  {
  }
}
