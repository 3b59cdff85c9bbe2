/** What the retry table keeps under every interleaving of requests, completions, panics, wake-ups and give-ups. */
module AttemptsSafety {
  import opened Wrappers
  import opened Framing
  import opened Routing
  import opened Attempts

  // ---- The table ----

  ghost predicate Distinct(keys: seq<AttemptKey>) {
    forall i, j :: 0 <= i < j < |keys| ==> keys[i] != keys[j]
  }

  /** `completed` lists exactly the finished keys, once each; the entries never outgrow the limit. */
  ghost predicate TableOk(s: Table) {
    && WellFormed(s)
    && 1 <= s.maxEntries <= MAX_REPLAY_ENTRIES && |s.entries| <= s.maxEntries
    && Distinct(s.completed)
    && (forall k :: k in s.completed <==> k in s.entries && s.records[s.entries[k]].Done())
    && (forall k :: k in s.entries ==> s.records[s.entries[k]].key == k)
  }

  /** The done channel is closed at most once, and a finished success is a consistent execution. */
  predicate RecordOk(a: Attempt) {
    && a.closes <= 1
    && (!a.Done() ==> !a.released && a.err.None?)
    && (a.released ==> a.err.None?)
    && (a.Done() && a.err.None? ==>
          && ExecutionValid(ExecutionResult(a.decision, a.invoked, a.result))
          && a.released == (a.decision.status == ApprovalRequired))
  }

  ghost predicate AllRecordsOk(records: seq<Attempt>) {
    forall id :: 0 <= id < |records| ==> RecordOk(records[id])
  }

  /** An attempt in flight holds its key, a held attempt is the newest of its key, and failed attempts are not held. */
  ghost predicate HeldOk(entries: map<AttemptKey, nat>, records: seq<Attempt>) {
    && (forall k :: k in entries ==> entries[k] < |records| && records[entries[k]].err.None?)
    && (forall id :: 0 <= id < |records| && !records[id].Done() ==>
          records[id].key in entries && entries[records[id].key] == id)
    && (forall id :: 0 <= id < |records| && records[id].key in entries ==> id <= entries[records[id].key])
  }

  lemma RemoveFromMap<K, V>(m: map<K, V>, k: K)
    requires k in m
    ensures |m - {k}| == |m| - 1
  {
    assert m == (m - {k})[k := m[k]];
  }

  lemma DistinctTail(keys: seq<AttemptKey>)
    requires Distinct(keys) && keys != []
    ensures Distinct(keys[1..]) && forall k :: k in keys[1..] <==> k in keys && k != keys[0]
  {
    var rest := keys[1..];
    assert forall i :: 0 <= i < |rest| ==> rest[i] == keys[i + 1];
    assert keys == [keys[0]] + rest;
  }

  lemma DropFirst(s: Table)
    requires TableOk(s) && s.completed != []
    ensures var after := s.(completed := s.completed[1..], entries := s.entries - {s.completed[0]});
            TableOk(after) && |after.entries| < s.maxEntries
  {
    var k := s.completed[0];
    DistinctTail(s.completed);
    assert k in s.completed;
    RemoveFromMap(s.entries, k);
  }

  /** The room a full table needs is one entry: the oldest finished key goes, and never a key in flight. */
  lemma OneEvictionMakesRoom(s: Table)
    requires TableOk(s)
    ensures MadeRoom(s) ==
            if |s.entries| < s.maxEntries || s.completed == [] then s
            else s.(completed := s.completed[1..], entries := s.entries - {s.completed[0]})
    ensures TableOk(MadeRoom(s))
    ensures |MadeRoom(s).entries| < s.maxEntries <==> |s.entries| < s.maxEntries || s.completed != []
  {
    if |s.entries| >= s.maxEntries && s.completed != [] {
      DropFirst(s);
    }
  }

  lemma {:induction false} WithoutHas(keys: seq<AttemptKey>, key: AttemptKey)
    ensures forall k :: k in Without(keys, key) <==> k in keys && k != key
  {
    if keys != [] {
      WithoutHas(keys[1..], key);
      assert keys == [keys[0]] + keys[1..];
    }
  }

  lemma {:induction false} WithoutDistinct(keys: seq<AttemptKey>, key: AttemptKey)
    requires Distinct(keys)
    ensures Distinct(Without(keys, key))
  {
    if keys != [] {
      var rest := keys[1..];
      assert forall i :: 0 <= i < |rest| ==> rest[i] == keys[i + 1];
      WithoutDistinct(rest, key);
      WithoutHas(rest, key);
      assert keys[0] !in rest;
      assert keys[0] !in Without(rest, key);
    }
  }

  lemma InsertKeepsTable(s: Table, owner: nat, key: AttemptKey, fingerprint: Fingerprint)
    requires WellFormed(s) && 1 <= s.maxEntries <= MAX_REPLAY_ENTRIES && |s.entries| <= s.maxEntries
             && Distinct(s.completed)
    requires key !in s.completed
    requires key !in s.entries ==> |s.entries| < s.maxEntries
    requires forall k :: k in s.completed ==> k in s.entries && s.records[s.entries[k]].Done()
    requires forall k :: k in s.entries && k != key && s.records[s.entries[k]].Done() ==> k in s.completed
    requires forall k :: k in s.entries ==> s.records[s.entries[k]].key == k
    ensures TableOk(Inserted(s, owner, key, fingerprint))
  {
  }

  lemma InsertKeepsHeld(entries: map<AttemptKey, nat>, records: seq<Attempt>, a: Attempt)
    requires HeldOk(entries, records) && AllRecordsOk(records) && RecordOk(a) && a.err.None?
    requires a.key in entries ==> records[entries[a.key]].Done()
    ensures HeldOk(entries[a.key := |records|], records + [a]) && AllRecordsOk(records + [a])
  {
  }

  lemma EvictKeepsHeld(entries: map<AttemptKey, nat>, records: seq<Attempt>, k: AttemptKey)
    requires HeldOk(entries, records) && k in entries && records[entries[k]].Done() && records[entries[k]].key == k
    ensures HeldOk(entries - {k}, records)
  {
  }

  /** What the first locked section does to a table in order, case by case. */
  lemma BeginKeeps(s: Table, owner: nat, key: AttemptKey, fingerprint: Fingerprint)
    requires TableOk(s)
    ensures var (table, begun) := BeginIn(s, owner, key, fingerprint); TableOk(table)
  {
    if key in s.entries {
      var existing := s.records[s.entries[key]];
      if existing.fingerprint == fingerprint && existing.released {
        WithoutHas(s.completed, key);
        WithoutDistinct(s.completed, key);
        InsertKeepsTable(s.(completed := Without(s.completed, key)), owner, key, fingerprint);
      }
    } else {
      OneEvictionMakesRoom(s);
      var room := MadeRoom(s);
      if |room.entries| < room.maxEntries {
        InsertKeepsTable(room, owner, key, fingerprint);
      }
    }
  }

  /** A callback answer that came through the owner's validation. */
  predicate AnswerOk(answer: Answer) {
    answer.Ok? ==> ExecutionValid(answer.value)
  }

  lemma FinishKeeps(s: Table, id: nat, answer: Answer)
    requires TableOk(s) && id < |s.records| && !s.records[id].Done()
    requires s.records[id].key in s.entries && s.entries[s.records[id].key] == id
    ensures TableOk(FinishIn(s, s.records[id].key, id, answer))
  {
    var key := s.records[id].key;
    assert key !in s.completed;
    assert forall k :: k in s.entries && k != key ==> s.entries[k] != id;
    if answer.Err? {
      FailureKeeps(s, id, answer);
    } else {
      SuccessKeeps(s, id, answer);
    }
  }

  lemma FailureKeeps(s: Table, id: nat, answer: Answer)
    requires TableOk(s) && id < |s.records| && answer.Err?
    requires var key := s.records[id].key;
             && key in s.entries && key !in s.completed && forall k :: k in s.entries && k != key ==> s.entries[k] != id
    ensures TableOk(FinishIn(s, s.records[id].key, id, answer))
  {
    RemoveFromMap(s.entries, s.records[id].key);
  }

  lemma SuccessKeeps(s: Table, id: nat, answer: Answer)
    requires TableOk(s) && id < |s.records| && answer.Ok?
    requires var key := s.records[id].key;
             && key in s.entries && s.entries[key] == id && key !in s.completed
             && forall k :: k in s.entries && k != key ==> s.entries[k] != id
    ensures TableOk(FinishIn(s, s.records[id].key, id, answer))
  {
  }

  lemma FinishKeepsHeld(s: Table, id: nat, answer: Answer)
    requires TableOk(s) && AllRecordsOk(s.records) && HeldOk(s.entries, s.records)
    requires id < |s.records| && !s.records[id].Done() && AnswerOk(answer)
    ensures var after := FinishIn(s, s.records[id].key, id, answer);
            AllRecordsOk(after.records) && HeldOk(after.entries, after.records)
  {
    var key := s.records[id].key;
    assert RecordOk(s.records[id]);
    assert RecordOk(Settled(s.records[id], answer));
    assert forall k :: k in s.entries && k != key ==> s.entries[k] != id;
  }
}
