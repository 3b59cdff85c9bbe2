/**
 Single flight and replay agreement for the retry table, as facts about the trace of every run: the attempts of one
 key never overlap, an attempt is repeated only after it failed, needed approval or was evicted, and every waiter
 takes exactly the answer its owner published.
 */
module AttemptsTheorems {
  import opened Wrappers
  import opened Traces
  import opened Utf8
  import opened Framing
  import opened Routing
  import opened ApprovalBinding
  import opened Attempts
  import opened AttemptsSafety

  // ---- What a trace may look like ----

  /** An answer after which the same key may run again. */
  predicate Retryable(answer: Answer) {
    answer.Err? || answer.value.decision.status == ApprovalRequired
  }

  predicate Ends(e: Event, id: nat) { e.Ended? && e.id == id }

  predicate Frees(e: Event, key: AttemptKey, id: nat) {
    match e
    case Ended(_, _, i, answer) => i == id && Retryable(answer)
    case Evicted(keys) => key in keys
    case _ => false
  }

  /** An event that takes a key out of the table, whatever was held under it. */
  predicate Clears(e: Event, key: AttemptKey) {
    match e
    case Ended(_, k, _, answer) => k == key && answer.Err?
    case Evicted(keys) => key in keys
    case _ => false
  }

  ghost predicate ClearedAfter(trace: seq<Event>, a: int, key: AttemptKey) {
    exists m :: a < m < |trace| && m >= 0 && Clears(trace[m], key)
  }

  ghost predicate EndedAfter(trace: seq<Event>, a: int, id: nat) {
    exists m :: a < m < |trace| && m >= 0 && Ends(trace[m], id)
  }

  ghost predicate FreedAfter(trace: seq<Event>, a: int, key: AttemptKey, id: nat) {
    exists m :: a < m < |trace| && m >= 0 && Frees(trace[m], key, id)
  }

  predicate Starts(e: Event, key: AttemptKey, fingerprint: Fingerprint, id: nat) {
    e.Started? && e.key == key && e.fingerprint == fingerprint && e.id == id
  }

  predicate StartsBy(e: Event, thread: nat, key: AttemptKey, id: nat) {
    e.Started? && e.thread == thread && e.key == key && e.id == id
  }

  predicate Publishes(e: Event, key: AttemptKey, id: nat, answer: Answer) {
    e.Ended? && e.key == key && e.id == id && e.answer == answer
  }

  ghost predicate EventOk(before: seq<Event>, e: Event) {
    match e
    case Started(_, key, fingerprint, id) =>
      forall a :: 0 <= a < |before| && before[a].Started? ==>
        && before[a].id < id
        && (before[a].key == key ==> EndedAfter(before, a, before[a].id) && FreedAfter(before, a, key, before[a].id))
        && (before[a].key == key && before[a].fingerprint != fingerprint ==> ClearedAfter(before, a, key))
    case Ended(thread, key, id, _) =>
      && (exists a :: 0 <= a < |before| && StartsBy(before[a], thread, key, id))
      && (forall a :: 0 <= a < |before| ==> !Ends(before[a], id))
    case Replayed(_, key, fingerprint, id, answer) =>
      && (exists a :: 0 <= a < |before| && Starts(before[a], key, fingerprint, id))
      && (exists a :: 0 <= a < |before| && Publishes(before[a], key, id, answer))
    case Evicted(keys) =>
      forall a :: 0 <= a < |before| && before[a].Started? && before[a].key in keys ==>
        EndedAfter(before, a, before[a].id)
  }

  ghost predicate TraceOk(trace: seq<Event>) {
    Lawful(EventOk, trace)
  }

  lemma AppendKeepsEnded(trace: seq<Event>, e: Event, a: int, id: nat)
    requires EndedAfter(trace, a, id)
    ensures EndedAfter(trace + [e], a, id)
  {
    var m :| a < m < |trace| && m >= 0 && Ends(trace[m], id);
    assert Ends((trace + [e])[m], id);
  }

  lemma AppendKeepsFreed(trace: seq<Event>, e: Event, a: int, key: AttemptKey, id: nat)
    requires FreedAfter(trace, a, key, id)
    ensures FreedAfter(trace + [e], a, key, id)
  {
    var m :| a < m < |trace| && m >= 0 && Frees(trace[m], key, id);
    assert Frees((trace + [e])[m], key, id);
  }

  lemma AppendKeepsCleared(trace: seq<Event>, e: Event, a: int, key: AttemptKey)
    requires ClearedAfter(trace, a, key)
    ensures ClearedAfter(trace + [e], a, key)
  {
    var m :| a < m < |trace| && m >= 0 && Clears(trace[m], key);
    assert Clears((trace + [e])[m], key);
  }

  // ---- How the trace and the table belong together ----

  /** Every start in the trace is a record, and every end is what that record holds. */
  ghost predicate Recorded(records: seq<Attempt>, trace: seq<Event>) {
    && (forall a :: 0 <= a < |trace| && trace[a].Started? ==>
          && trace[a].id < |records|
          && records[trace[a].id].key == trace[a].key && records[trace[a].id].fingerprint == trace[a].fingerprint)
    && (forall a :: 0 <= a < |trace| && trace[a].Ended? ==>
          && trace[a].id < |records| && records[trace[a].id].Done()
          && records[trace[a].id].key == trace[a].key && Replay(records[trace[a].id]) == trace[a].answer)
  }

  predicate StartsRecord(e: Event, a: Attempt, id: nat) {
    e == Started(a.owner, a.key, a.fingerprint, id)
  }

  ghost predicate StartSeen(a: Attempt, id: nat, trace: seq<Event>) {
    exists i :: 0 <= i < |trace| && StartsRecord(trace[i], a, id)
  }

  /** Every record has its start in the trace, and its end once it is done. */
  ghost predicate Traced(records: seq<Attempt>, trace: seq<Event>) {
    && (forall id :: 0 <= id < |records| ==> StartSeen(records[id], id, trace))
    && (forall a :: 0 <= a < |trace| && trace[a].Started? && trace[a].id < |records| && records[trace[a].id].Done() ==>
          EndedAfter(trace, a, trace[a].id))
  }

  /** An attempt that no longer holds its key was let go by an event. */
  ghost predicate Accounted(entries: map<AttemptKey, nat>, trace: seq<Event>) {
    forall a :: 0 <= a < |trace| && trace[a].Started? ==>
      || (trace[a].key in entries && entries[trace[a].key] == trace[a].id)
      || FreedAfter(trace, a, trace[a].key, trace[a].id)
  }

  predicate Holds(entries: map<AttemptKey, nat>, records: seq<Attempt>, key: AttemptKey, fingerprint: Fingerprint) {
    key in entries && entries[key] < |records| && records[entries[key]].fingerprint == fingerprint
  }

  /** A key belongs to the operation that first claimed it until an event clears it. */
  ghost predicate Claimed(entries: map<AttemptKey, nat>, records: seq<Attempt>, trace: seq<Event>) {
    forall a :: 0 <= a < |trace| && trace[a].Started? ==>
      Holds(entries, records, trace[a].key, trace[a].fingerprint) || ClearedAfter(trace, a, trace[a].key)
  }

  ghost predicate LedgerOk(entries: map<AttemptKey, nat>, records: seq<Attempt>, trace: seq<Event>) {
    && AllRecordsOk(records) && HeldOk(entries, records)
    && TraceOk(trace) && Recorded(records, trace) && Traced(records, trace) && Accounted(entries, trace)
    && Claimed(entries, records, trace)
  }

  /** Appending an event keeps the claims, except those the table gives up: these the event must clear. */
  lemma AppendKeepsClaimed(entries: map<AttemptKey, nat>, records: seq<Attempt>, trace: seq<Event>, e: Event,
                           entries': map<AttemptKey, nat>, records': seq<Attempt>)
    requires Claimed(entries, records, trace)
    requires e.Started? ==> Holds(entries', records', e.key, e.fingerprint)
    requires forall a :: 0 <= a < |trace| && trace[a].Started?
                         && Holds(entries, records, trace[a].key, trace[a].fingerprint) ==>
               || Holds(entries', records', trace[a].key, trace[a].fingerprint)
               || Clears(e, trace[a].key) || ClearedAfter(trace, a, trace[a].key)
    ensures Claimed(entries', records', trace + [e])
  {
    var longer := trace + [e];
    forall a | 0 <= a < |longer| && longer[a].Started?
      ensures Holds(entries', records', longer[a].key, longer[a].fingerprint) || ClearedAfter(longer, a, longer[a].key)
    {
      if a < |trace| {
        if ClearedAfter(trace, a, trace[a].key) {
          AppendKeepsCleared(trace, e, a, trace[a].key);
        } else if Clears(e, trace[a].key) {
          assert Clears(longer[|trace|], trace[a].key);
        }
      }
    }
  }

  lemma StartSeenKept(a: Attempt, id: nat, trace: seq<Event>, e: Event)
    requires StartSeen(a, id, trace)
    ensures StartSeen(a, id, trace + [e])
  {
    var i :| 0 <= i < |trace| && StartsRecord(trace[i], a, id);
    assert StartsRecord((trace + [e])[i], a, id);
  }

  /** Appending any event but a start keeps the ledger's bookkeeping, record by record. */
  lemma AppendKeepsTraced(records: seq<Attempt>, trace: seq<Event>, e: Event)
    requires Traced(records, trace) && !e.Started?
    ensures Traced(records, trace + [e])
  {
    forall id | 0 <= id < |records| ensures StartSeen(records[id], id, trace + [e]) {
      StartSeenKept(records[id], id, trace, e);
    }
    forall a | 0 <= a < |trace + [e]| && (trace + [e])[a].Started? && (trace + [e])[a].id < |records|
               && records[(trace + [e])[a].id].Done()
      ensures EndedAfter(trace + [e], a, (trace + [e])[a].id)
    {
      AppendKeepsEnded(trace, e, a, trace[a].id);
    }
  }

  lemma AppendKeepsAccounted(entries: map<AttemptKey, nat>, trace: seq<Event>, e: Event)
    requires Accounted(entries, trace) && !e.Started?
    ensures Accounted(entries, trace + [e])
  {
    forall a | 0 <= a < |trace + [e]| && (trace + [e])[a].Started?
      ensures || ((trace + [e])[a].key in entries && entries[(trace + [e])[a].key] == (trace + [e])[a].id)
              || FreedAfter(trace + [e], a, (trace + [e])[a].key, (trace + [e])[a].id)
    {
      if !(trace[a].key in entries && entries[trace[a].key] == trace[a].id) {
        AppendKeepsFreed(trace, e, a, trace[a].key, trace[a].id);
      }
    }
  }

  lemma EvictKeepsAccounted(entries: map<AttemptKey, nat>, trace: seq<Event>, k: AttemptKey)
    requires Accounted(entries, trace)
    ensures Accounted(entries - {k}, trace + [Evicted([k])])
  {
    var e := Evicted([k]);
    AppendKeepsAccounted(entries, trace, e);
    forall a | 0 <= a < |trace + [e]| && (trace + [e])[a].Started? && (trace + [e])[a].key == k
      ensures FreedAfter(trace + [e], a, k, (trace + [e])[a].id)
    {
      assert Frees((trace + [e])[|trace|], k, trace[a].id);
    }
  }

  lemma EvictKeepsTrace(entries: map<AttemptKey, nat>, records: seq<Attempt>, trace: seq<Event>, k: AttemptKey)
    requires HeldOk(entries, records) && TraceOk(trace) && Recorded(records, trace) && Traced(records, trace)
    requires k in entries && records[entries[k]].Done() && records[entries[k]].key == k
    ensures TraceOk(trace + [Evicted([k])])
  {
    forall a | 0 <= a < |trace| && trace[a].Started? && trace[a].key in [k] ensures EndedAfter(trace, a, trace[a].id) {
      assert records[trace[a].id].key == k;
    }
    Extend(EventOk, trace, Evicted([k]));
  }

  lemma EvictKeepsClaimed(entries: map<AttemptKey, nat>, records: seq<Attempt>, trace: seq<Event>, k: AttemptKey)
    requires Claimed(entries, records, trace)
    ensures Claimed(entries - {k}, records, trace + [Evicted([k])])
  {
    assert Clears(Evicted([k]), k);
    AppendKeepsClaimed(entries, records, trace, Evicted([k]), entries - {k}, records);
  }

  lemma AppendKeepsRecorded(records: seq<Attempt>, trace: seq<Event>, e: Event)
    requires Recorded(records, trace) && !e.Started? && !e.Ended?
    ensures Recorded(records, trace + [e])
  {
  }

  lemma LedgerEvict(entries: map<AttemptKey, nat>, records: seq<Attempt>, trace: seq<Event>, k: AttemptKey)
    requires LedgerOk(entries, records, trace) && k in entries && records[entries[k]].Done()
             && records[entries[k]].key == k
    ensures LedgerOk(entries - {k}, records, trace + [Evicted([k])])
  {
    var e := Evicted([k]);
    EvictKeepsHeld(entries, records, k);
    EvictKeepsTrace(entries, records, trace, k);
    AppendKeepsTraced(records, trace, e);
    EvictKeepsAccounted(entries, trace, k);
    EvictKeepsClaimed(entries, records, trace, k);
    AppendKeepsRecorded(records, trace, e);
  }

  /** All earlier attempts of a key that may start again have ended and been let go. */
  lemma EarlierAttemptsAreOver(entries: map<AttemptKey, nat>, records: seq<Attempt>, trace: seq<Event>,
                               key: AttemptKey, a: int)
    requires LedgerOk(entries, records, trace)
    requires key in entries ==> records[entries[key]].released
    requires 0 <= a < |trace| && trace[a].Started? && trace[a].key == key
    ensures EndedAfter(trace, a, trace[a].id) && FreedAfter(trace, a, key, trace[a].id)
  {
    var id := trace[a].id;
    assert RecordOk(records[id]);
    if key in entries {
      assert RecordOk(records[entries[key]]);
    }
    assert records[id].Done();
    assert EndedAfter(trace, a, id);
    if key in entries && entries[key] == id {
      var m :| a < m < |trace| && m >= 0 && Ends(trace[m], id);
      assert trace[m].answer == Replay(records[id]);
      assert Frees(trace[m], key, id);
    }
  }

  lemma StartKeepsTrace(entries: map<AttemptKey, nat>, records: seq<Attempt>, trace: seq<Event>, a: Attempt)
    requires LedgerOk(entries, records, trace)
    requires a.key in entries ==>
               records[entries[a.key]].released && records[entries[a.key]].fingerprint == a.fingerprint
    ensures TraceOk(trace + [Started(a.owner, a.key, a.fingerprint, |records|)])
  {
    forall i | 0 <= i < |trace| && trace[i].Started? && trace[i].key == a.key
      ensures EndedAfter(trace, i, trace[i].id) && FreedAfter(trace, i, a.key, trace[i].id)
      ensures trace[i].fingerprint != a.fingerprint ==> ClearedAfter(trace, i, a.key)
    {
      EarlierAttemptsAreOver(entries, records, trace, a.key, i);
      assert Holds(entries, records, trace[i].key, trace[i].fingerprint) || ClearedAfter(trace, i, trace[i].key);
    }
    Extend(EventOk, trace, Started(a.owner, a.key, a.fingerprint, |records|));
  }

  lemma StartKeepsAccounted(entries: map<AttemptKey, nat>, records: seq<Attempt>, trace: seq<Event>, a: Attempt)
    requires LedgerOk(entries, records, trace)
    requires a.key in entries ==> records[entries[a.key]].released
    ensures Accounted(entries[a.key := |records|], trace + [Started(a.owner, a.key, a.fingerprint, |records|)])
  {
    var e := Started(a.owner, a.key, a.fingerprint, |records|);
    var longer := trace + [e];
    forall i | 0 <= i < |longer| && longer[i].Started?
      ensures || (longer[i].key in entries[a.key := |records|]
                  && entries[a.key := |records|][longer[i].key] == longer[i].id)
              || FreedAfter(longer, i, longer[i].key, longer[i].id)
    {
      if i < |trace| {
        if trace[i].key == a.key {
          EarlierAttemptsAreOver(entries, records, trace, a.key, i);
          AppendKeepsFreed(trace, e, i, trace[i].key, trace[i].id);
        } else if !(trace[i].key in entries && entries[trace[i].key] == trace[i].id) {
          AppendKeepsFreed(trace, e, i, trace[i].key, trace[i].id);
        }
      }
    }
  }

  lemma LedgerStart(entries: map<AttemptKey, nat>, records: seq<Attempt>, trace: seq<Event>, a: Attempt)
    requires LedgerOk(entries, records, trace)
    requires RecordOk(a) && !a.Done()
    requires a.key in entries ==>
               records[entries[a.key]].released && records[entries[a.key]].fingerprint == a.fingerprint
    ensures LedgerOk(entries[a.key := |records|], records + [a],
                     trace + [Started(a.owner, a.key, a.fingerprint, |records|)])
  {
    if a.key in entries {
      assert RecordOk(records[entries[a.key]]);
    }
    InsertKeepsHeld(entries, records, a);
    StartKeepsTrace(entries, records, trace, a);
    StartKeepsTraced(records, trace, a);
    StartKeepsAccounted(entries, records, trace, a);
    StartKeepsRecorded(records, trace, a);
    StartKeepsClaimed(entries, records, trace, a);
  }

  lemma StartKeepsRecorded(records: seq<Attempt>, trace: seq<Event>, a: Attempt)
    requires Recorded(records, trace)
    ensures Recorded(records + [a], trace + [Started(a.owner, a.key, a.fingerprint, |records|)])
  {
  }

  lemma StartKeepsClaimed(entries: map<AttemptKey, nat>, records: seq<Attempt>, trace: seq<Event>, a: Attempt)
    requires Claimed(entries, records, trace)
    requires a.key in entries ==> entries[a.key] < |records| && records[entries[a.key]].fingerprint == a.fingerprint
    ensures Claimed(entries[a.key := |records|], records + [a],
                    trace + [Started(a.owner, a.key, a.fingerprint, |records|)])
  {
    AppendKeepsClaimed(entries, records, trace, Started(a.owner, a.key, a.fingerprint, |records|),
                       entries[a.key := |records|], records + [a]);
  }

  lemma StartKeepsTraced(records: seq<Attempt>, trace: seq<Event>, a: Attempt)
    requires Traced(records, trace) && !a.Done()
    ensures Traced(records + [a], trace + [Started(a.owner, a.key, a.fingerprint, |records|)])
  {
    var e := Started(a.owner, a.key, a.fingerprint, |records|);
    var more := records + [a];
    forall id | 0 <= id < |more| ensures StartSeen(more[id], id, trace + [e]) {
      if id < |records| {
        StartSeenKept(records[id], id, trace, e);
      } else {
        assert StartsRecord((trace + [e])[|trace|], a, id);
      }
    }
    forall i | 0 <= i < |trace + [e]| && (trace + [e])[i].Started? && (trace + [e])[i].id < |more|
           && more[(trace + [e])[i].id].Done()
      ensures EndedAfter(trace + [e], i, (trace + [e])[i].id)
    {
      AppendKeepsEnded(trace, e, i, trace[i].id);
    }
  }

  lemma FinishKeepsRecorded(records: seq<Attempt>, trace: seq<Event>, id: nat, answer: Answer)
    requires Recorded(records, trace) && AllRecordsOk(records)
    requires id < |records| && !records[id].Done()
    ensures Recorded(records[id := Settled(records[id], answer)],
                     trace + [Ended(records[id].owner, records[id].key, id, answer)])
  {
    assert RecordOk(records[id]);
    assert Replay(Settled(records[id], answer)) == answer;
  }

  lemma FinishKeepsTraced(records: seq<Attempt>, trace: seq<Event>, id: nat, answer: Answer)
    requires Traced(records, trace) && Recorded(records, trace)
    requires id < |records| && !records[id].Done()
    ensures Traced(records[id := Settled(records[id], answer)],
                   trace + [Ended(records[id].owner, records[id].key, id, answer)])
  {
    var e := Ended(records[id].owner, records[id].key, id, answer);
    var after := records[id := Settled(records[id], answer)];
    forall i | 0 <= i < |after| ensures StartSeen(after[i], i, trace + [e]) {
      StartSeenKept(records[i], i, trace, e);
      var j :| 0 <= j < |trace + [e]| && StartsRecord((trace + [e])[j], records[i], i);
      assert StartsRecord((trace + [e])[j], after[i], i);
    }
    forall i | 0 <= i < |trace + [e]| && (trace + [e])[i].Started? && (trace + [e])[i].id < |after|
           && after[(trace + [e])[i].id].Done()
      ensures EndedAfter(trace + [e], i, (trace + [e])[i].id)
    {
      if trace[i].id == id {
        assert Ends((trace + [e])[|trace|], id);
      } else {
        AppendKeepsEnded(trace, e, i, trace[i].id);
      }
    }
  }

  lemma LedgerFinish(s: Table, trace: seq<Event>, id: nat, answer: Answer)
    requires TableOk(s) && LedgerOk(s.entries, s.records, trace)
    requires id < |s.records| && !s.records[id].Done() && AnswerOk(answer)
    ensures var after := FinishIn(s, s.records[id].key, id, answer);
            LedgerOk(after.entries, after.records, trace + [Ended(s.records[id].owner, s.records[id].key, id, answer)])
  {
    var key := s.records[id].key;
    var e := Ended(s.records[id].owner, key, id, answer);
    FinishKeepsHeld(s, id, answer);
    EndIsNew(s.records, trace, id, answer);
    Extend(EventOk, trace, e);
    FinishKeepsRecorded(s.records, trace, id, answer);
    FinishKeepsTraced(s.records, trace, id, answer);
    FinishKeepsAccounted(s, trace, id, e);
    FinishKeepsClaimed(s, trace, id, e);
  }

  lemma FinishKeepsAccounted(s: Table, trace: seq<Event>, id: nat, e: Event)
    requires HeldOk(s.entries, s.records) && Accounted(s.entries, trace)
    requires id < |s.records| && !s.records[id].Done() && e.Ended? && e.key == s.records[id].key && e.id == id
    ensures Accounted(FinishIn(s, e.key, id, e.answer).entries, trace + [e])
  {
    AppendKeepsAccounted(s.entries, trace, e);
    if e.answer.Err? { FailureIsAccounted(s.entries, trace, e); }
  }

  lemma FinishKeepsClaimed(s: Table, trace: seq<Event>, id: nat, e: Event)
    requires Claimed(s.entries, s.records, trace)
    requires id < |s.records| && e.Ended? && e.key == s.records[id].key && e.id == id
    ensures var after := FinishIn(s, e.key, id, e.answer); Claimed(after.entries, after.records, trace + [e])
  {
    var after := FinishIn(s, e.key, id, e.answer);
    AppendKeepsClaimed(s.entries, s.records, trace, e, after.entries, after.records);
  }

  lemma EndIsNew(records: seq<Attempt>, trace: seq<Event>, id: nat, answer: Answer)
    requires Traced(records, trace) && Recorded(records, trace)
    requires id < |records| && !records[id].Done()
    ensures EventOk(trace, Ended(records[id].owner, records[id].key, id, answer))
  {
    assert StartSeen(records[id], id, trace);
    var i :| 0 <= i < |trace| && StartsRecord(trace[i], records[id], id);
    assert StartsBy(trace[i], records[id].owner, records[id].key, id);
  }

  lemma FailureIsAccounted(entries: map<AttemptKey, nat>, trace: seq<Event>, e: Event)
    requires Accounted(entries, trace + [e])
    requires e.Ended? && e.answer.Err? && e.key in entries && entries[e.key] == e.id
    ensures Accounted(entries - {e.key}, trace + [e])
  {
    var longer := trace + [e];
    forall i | 0 <= i < |longer| && longer[i].Started? && longer[i].key == e.key && longer[i].id == e.id
      ensures FreedAfter(longer, i, longer[i].key, longer[i].id)
    {
      assert Frees(longer[|trace|], e.key, e.id);
    }
  }

  lemma LedgerReplay(entries: map<AttemptKey, nat>, records: seq<Attempt>, trace: seq<Event>, t: nat, id: nat)
    requires LedgerOk(entries, records, trace) && id < |records| && records[id].Done()
    ensures LedgerOk(entries, records,
                     trace + [Replayed(t, records[id].key, records[id].fingerprint, id, Replay(records[id]))])
  {
    var e := Replayed(t, records[id].key, records[id].fingerprint, id, Replay(records[id]));
    ReplayIsLawful(records, trace, t, id);
    Extend(EventOk, trace, e);
    AppendKeepsTraced(records, trace, e);
    AppendKeepsAccounted(entries, trace, e);
    AppendKeepsClaimed(entries, records, trace, e, entries, records);
    AppendKeepsRecorded(records, trace, e);
  }

  lemma ReplayIsLawful(records: seq<Attempt>, trace: seq<Event>, t: nat, id: nat)
    requires Traced(records, trace) && Recorded(records, trace) && id < |records| && records[id].Done()
    ensures EventOk(trace, Replayed(t, records[id].key, records[id].fingerprint, id, Replay(records[id])))
  {
    var a := records[id];
    assert StartSeen(a, id, trace);
    var i :| 0 <= i < |trace| && StartsRecord(trace[i], a, id);
    assert Starts(trace[i], a.key, a.fingerprint, id);
    assert EndedAfter(trace, i, id);
    var m :| i < m < |trace| && m >= 0 && Ends(trace[m], id);
    assert Publishes(trace[m], a.key, id, Replay(a));
  }

  // ---- The callers ----

  ghost predicate CallerOk(records: seq<Attempt>, t: nat, c: Caller) {
    match c.progress
    case Running(id) =>
      && id < |records| && !records[id].Done() && records[id].owner == t
      && records[id].key == c.key && records[id].fingerprint == c.fingerprint
    case Waiting(id) => id < |records| && records[id].key == c.key && records[id].fingerprint == c.fingerprint
    case Answered(_, _) => true
  }

  ghost predicate CallersOk(records: seq<Attempt>, callers: map<nat, Caller>) {
    && (forall t :: t in callers ==> CallerOk(records, t, callers[t]))
    && (forall id :: 0 <= id < |records| && !records[id].Done() ==>
          records[id].owner in callers && callers[records[id].owner].progress == Running(id))
  }

  /** The invariant of the whole machine. */
  ghost predicate Inv(s: State) {
    && TableOk(s.table)
    && LedgerOk(s.table.entries, s.table.records, s.trace)
    && CallersOk(s.table.records, s.callers)
  }

  lemma OwnKeepsCallers(records: seq<Attempt>, callers: map<nat, Caller>, t: nat, key: AttemptKey,
                        fingerprint: Fingerprint)
    requires CallersOk(records, callers) && t !in callers
    ensures CallersOk(records + [FreshAttempt(t, key, fingerprint)],
                      callers[t := Caller(key, fingerprint, Running(|records|))])
  {
    var more := records + [FreshAttempt(t, key, fingerprint)];
    forall u | u in callers ensures CallerOk(more, u, callers[u]) {
      assert CallerOk(records, u, callers[u]);
    }
  }

  lemma FinishKeepsCallers(records: seq<Attempt>, callers: map<nat, Caller>, t: nat, answer: Answer)
    requires CallersOk(records, callers) && t in callers && callers[t].progress.Running?
    ensures var id := callers[t].progress.id;
            && id < |records|
            && CallersOk(records[id := Settled(records[id], answer)],
                         callers[t := callers[t].(progress := Answered(false, answer))])
  {
    assert CallerOk(records, t, callers[t]);
    var id := callers[t].progress.id;
    var after := records[id := Settled(records[id], answer)];
    forall u | u in callers && u != t ensures CallerOk(after, u, callers[u]) {
      assert CallerOk(records, u, callers[u]);
    }
  }

  lemma AnswerKeepsCallers(records: seq<Attempt>, callers: map<nat, Caller>, t: nat, c: Caller)
    requires CallersOk(records, callers)
    requires t in callers ==> !callers[t].progress.Running?
    requires CallerOk(records, t, c) && !c.progress.Running?
    ensures CallersOk(records, callers[t := c])
  {
  }

  /** The table and trace half of a request, for a key that is held and for one that is not. */
  lemma HeldRequestKeepsLedger(s: State, t: nat, key: AttemptKey, fingerprint: Fingerprint)
    requires TableOk(s.table) && LedgerOk(s.table.entries, s.table.records, s.trace) && key in s.table.entries
    ensures var after := RequestStep(s, t, key, fingerprint);
            LedgerOk(after.table.entries, after.table.records, after.trace)
  {
    var existing := s.table.records[s.table.entries[key]];
    if existing.fingerprint == fingerprint && existing.released {
      LedgerStart(s.table.entries, s.table.records, s.trace, FreshAttempt(t, key, fingerprint));
    }
  }

  lemma NewRequestWithRoom(s: State, t: nat, key: AttemptKey, fingerprint: Fingerprint)
    requires TableOk(s.table) && key !in s.table.entries && |s.table.entries| < s.table.maxEntries
    ensures var after := RequestStep(s, t, key, fingerprint);
            && after.table.entries == s.table.entries[key := |s.table.records|]
            && after.table.records == s.table.records + [FreshAttempt(t, key, fingerprint)]
            && after.trace == s.trace + [Started(t, key, fingerprint, |s.table.records|)]
  {
    OneEvictionMakesRoom(s.table);
    assert Evictions(s.table, key) == [];
  }

  lemma EvictionsWhenFull(s: Table, key: AttemptKey)
    requires TableOk(s) && key !in s.entries && |s.entries| >= s.maxEntries
    ensures Evictions(s, key) == if s.completed == [] then [] else [s.completed[0]]
  {
    OneEvictionMakesRoom(s);
    if s.completed != [] {
      assert s.completed[..1] == [s.completed[0]];
    }
  }

  lemma NewRequestWhenFull(s: State, t: nat, key: AttemptKey, fingerprint: Fingerprint)
    requires TableOk(s.table) && key !in s.table.entries && |s.table.entries| >= s.table.maxEntries
    ensures var after := RequestStep(s, t, key, fingerprint);
            if s.table.completed == [] then after.table == s.table && after.trace == s.trace
            else
              && after.table.entries == (s.table.entries - {s.table.completed[0]})[key := |s.table.records|]
              && after.table.records == s.table.records + [FreshAttempt(t, key, fingerprint)]
              && after.trace == s.trace + [Evicted([s.table.completed[0]])]
                                  + [Started(t, key, fingerprint, |s.table.records|)]
  {
    OneEvictionMakesRoom(s.table);
    EvictionsWhenFull(s.table, key);
  }

  lemma NewRequestKeepsLedger(s: State, t: nat, key: AttemptKey, fingerprint: Fingerprint)
    requires TableOk(s.table) && LedgerOk(s.table.entries, s.table.records, s.trace) && key !in s.table.entries
    ensures var after := RequestStep(s, t, key, fingerprint);
            LedgerOk(after.table.entries, after.table.records, after.trace)
  {
    if |s.table.entries| < s.table.maxEntries {
      NewRequestWithRoom(s, t, key, fingerprint);
      LedgerStart(s.table.entries, s.table.records, s.trace, FreshAttempt(t, key, fingerprint));
    } else {
      NewRequestWhenFull(s, t, key, fingerprint);
      if s.table.completed != [] {
        EvictionThenStart(s.table, s.trace, FreshAttempt(t, key, fingerprint));
      }
    }
  }

  lemma EvictionThenStart(s: Table, trace: seq<Event>, a: Attempt)
    requires TableOk(s) && LedgerOk(s.entries, s.records, trace) && s.completed != []
    requires a.key !in s.entries && RecordOk(a) && !a.Done()
    ensures LedgerOk((s.entries - {s.completed[0]})[a.key := |s.records|], s.records + [a],
                     trace + [Evicted([s.completed[0]])] + [Started(a.owner, a.key, a.fingerprint, |s.records|)])
  {
    var oldest := s.completed[0];
    assert oldest in s.completed;
    LedgerEvict(s.entries, s.records, trace, oldest);
    LedgerStart(s.entries - {oldest}, s.records, trace + [Evicted([oldest])], a);
  }

  lemma RequestKeepsTable(s: State, t: nat, key: AttemptKey, fingerprint: Fingerprint)
    requires TableOk(s.table)
    ensures TableOk(RequestStep(s, t, key, fingerprint).table)
  {
    BeginKeeps(s.table, t, key, fingerprint);
  }

  lemma RequestKeeps(s: State, t: nat, key: AttemptKey, fingerprint: Fingerprint)
    requires Inv(s) && t !in s.callers
    ensures Inv(RequestStep(s, t, key, fingerprint))
  {
    RequestKeepsTable(s, t, key, fingerprint);
    RequestKeepsCallers(s, t, key, fingerprint);
    if key in s.table.entries {
      HeldRequestKeepsLedger(s, t, key, fingerprint);
    } else {
      NewRequestKeepsLedger(s, t, key, fingerprint);
    }
  }

  lemma RequestKeepsCallers(s: State, t: nat, key: AttemptKey, fingerprint: Fingerprint)
    requires TableOk(s.table) && CallersOk(s.table.records, s.callers) && t !in s.callers
    ensures var after := RequestStep(s, t, key, fingerprint); CallersOk(after.table.records, after.callers)
  {
    var begun := BeginIn(s.table, t, key, fingerprint).1;
    BeginRecords(s.table, t, key, fingerprint);
    if begun.Owns? {
      OwnKeepsCallers(s.table.records, s.callers, t, key, fingerprint);
    } else if begun.Waits? {
      AnswerKeepsCallers(s.table.records, s.callers, t, Caller(key, fingerprint, Waiting(begun.id)));
    } else {
      var error := if begun.Conflict? then KeyConflict else NoCapacity;
      AnswerKeepsCallers(s.table.records, s.callers, t, Caller(key, fingerprint, Answered(false, Err(error))));
    }
  }

  /** The records after the first locked section, and whose record is waited for. */
  lemma BeginRecords(s: Table, t: nat, key: AttemptKey, fingerprint: Fingerprint)
    requires TableOk(s)
    ensures var (table, begun) := BeginIn(s, t, key, fingerprint);
            && (begun.Owns? ==>
                  begun.id == |s.records| && table.records == s.records + [FreshAttempt(t, key, fingerprint)])
            && (!begun.Owns? ==> table.records == s.records)
            && (begun.Waits? ==> begun.id < |s.records| && s.records[begun.id].key == key
                                 && s.records[begun.id].fingerprint == fingerprint)
  {
  }

  lemma CompleteKeeps(s: State, t: nat, callback: Callback)
    requires Inv(s) && t in s.callers && s.callers[t].progress.Running?
    ensures s.callers[t].progress.id < |s.table.records|
    ensures Inv(CompleteStep(s, t, s.callers[t], s.callers[t].progress.id, Judge(callback)))
  {
    var c := s.callers[t];
    var id := c.progress.id;
    assert CallerOk(s.table.records, t, c);
    FinishKeeps(s.table, id, Judge(callback));
    LedgerFinish(s.table, s.trace, id, Judge(callback));
    FinishKeepsCallers(s.table.records, s.callers, t, Judge(callback));
  }

  lemma WakeKeeps(s: State, t: nat)
    requires Inv(s) && t in s.callers && s.callers[t].progress.Waiting?
    ensures s.callers[t].progress.id < |s.table.records|
    ensures Inv(WakeStep(s, t, s.callers[t], s.callers[t].progress.id))
  {
    var c := s.callers[t];
    var id := c.progress.id;
    assert CallerOk(s.table.records, t, c);
    if s.table.records[id].Done() {
      LedgerReplay(s.table.entries, s.table.records, s.trace, t, id);
      AnswerKeepsCallers(s.table.records, s.callers, t, c.(progress := Answered(true, Replay(s.table.records[id]))));
    }
  }

  /** Every atomic step of every caller keeps the invariant. */
  lemma StepKeeps(s: State, a: Action)
    requires Inv(s) && StateWellFormed(s)
    ensures Inv(Apply(s, a))
  {
    match a
    case Request(t, runId, key, request, arguments) =>
      if t !in s.callers {
        RefuseKeeps(s, t, AttemptKey(runId, key));
        if IdempotencyKeyValid(key) && RequestValid(request) && arguments != [] {
          RequestKeeps(s, t, AttemptKey(runId, key), RetryFingerprint(request, arguments));
        }
      }
    case Complete(t, callback) =>
      if t in s.callers && s.callers[t].progress.Running? {
        CompleteKeeps(s, t, callback);
      }
    case Wake(t) =>
      if t in s.callers && s.callers[t].progress.Waiting? {
        WakeKeeps(s, t);
      }
    case GiveUp(t) =>
      if t in s.callers && s.callers[t].progress.Waiting? {
        AnswerKeepsCallers(s.table.records, s.callers, t, s.callers[t].(progress := Answered(true, Err(ContextEnded))));
      }
  }

  lemma RefuseKeeps(s: State, t: nat, key: AttemptKey)
    requires Inv(s) && t !in s.callers
    ensures forall e :: Inv(WithCaller(s, t, Caller(key, UNKNOWN, Answered(false, Err(e)))))
  {
    forall e: AttemptError ensures Inv(WithCaller(s, t, Caller(key, UNKNOWN, Answered(false, Err(e))))) {
      AnswerKeepsCallers(s.table.records, s.callers, t, Caller(key, UNKNOWN, Answered(false, Err(e))));
    }
  }

  lemma {:induction false} RunKeeps(s: State, actions: seq<Action>)
    requires Inv(s) && StateWellFormed(s)
    ensures Inv(After(s, actions))
    decreases |actions|
  {
    if actions != [] {
      StepKeeps(s, actions[0]);
      RunKeeps(Apply(s, actions[0]), actions[1..]);
    }
  }

  // ---- The theorems, over every sequence of steps ----

  ghost predicate Reachable(s: State) {
    exists maxEntries: int, actions: seq<Action> :: s == After(Initial(maxEntries), actions)
  }

  lemma ReachableInv(s: State)
    requires Reachable(s)
    ensures Inv(s)
  {
    var maxEntries: int, actions: seq<Action> :| s == After(Initial(maxEntries), actions);
    RunKeeps(Initial(maxEntries), actions);
  }

  /**
   In every reachable state the replay list is duplicate-free and is exactly the finished keys, the table never
   exceeds its limit, every other key has exactly one owner and that owner is running it, and no done channel was
   closed twice.
   */
  lemma TableInvariant(s: State)
    requires Reachable(s)
    ensures Distinct(s.table.completed)
    ensures |s.table.entries| <= s.table.maxEntries <= MAX_REPLAY_ENTRIES
    ensures forall k :: k in s.table.entries ==> s.table.entries[k] < |s.table.records|
    ensures forall k :: k in s.table.completed <==> k in s.table.entries && s.table.records[s.table.entries[k]].Done()
    ensures forall k :: k in s.table.entries && k !in s.table.completed ==>
              var id := s.table.entries[k];
              var owner := s.table.records[id].owner;
              && owner in s.callers && s.callers[owner].progress == Running(id)
              && forall t :: t in s.callers && s.callers[t].progress.Running? && s.callers[t].key == k ==> t == owner
    ensures forall t :: t in s.callers && s.callers[t].progress.Running? ==>
              && s.callers[t].key in s.table.entries && s.table.entries[s.callers[t].key] == s.callers[t].progress.id
              && s.callers[t].key !in s.table.completed
    ensures forall id :: 0 <= id < |s.table.records| ==> s.table.records[id].closes <= 1
  {
    ReachableInv(s);
    forall t | t in s.callers && s.callers[t].progress.Running?
      ensures && s.callers[t].key in s.table.entries && s.table.entries[s.callers[t].key] == s.callers[t].progress.id
              && s.callers[t].key !in s.table.completed
              && s.table.records[s.callers[t].progress.id].owner == t
    {
      assert CallerOk(s.table.records, t, s.callers[t]);
    }
    forall id | 0 <= id < |s.table.records| ensures s.table.records[id].closes <= 1 {
      assert RecordOk(s.table.records[id]);
    }
  }

  /**
   Single flight: between two starts of one key, the first has ended. And nothing runs twice while its result is
   retained: in between, the first failed, asked for approval, or was evicted.
   */
  lemma SingleFlight(s: State, i: nat, j: nat)
    requires Reachable(s) && i < j < |s.trace|
    requires s.trace[i].Started? && s.trace[j].Started? && s.trace[i].key == s.trace[j].key
    ensures s.trace[i].id < s.trace[j].id
    ensures exists m :: i < m < j && s.trace[m].Ended? && s.trace[m].id == s.trace[i].id
    ensures exists m :: i < m < j
              && (|| (s.trace[m].Ended? && s.trace[m].id == s.trace[i].id && Retryable(s.trace[m].answer))
                  || (s.trace[m].Evicted? && s.trace[i].key in s.trace[m].keys))
  {
    ReachableInv(s);
    var before := s.trace[..j];
    assert EventOk(before, s.trace[j]);
    assert before[i] == s.trace[i];
    var m :| i < m < |before| && m >= 0 && Ends(before[m], before[i].id);
    assert s.trace[m].Ended? && s.trace[m].id == s.trace[i].id;
    var n :| i < n < |before| && n >= 0 && Frees(before[n], before[i].key, before[i].id);
    assert before[n] == s.trace[n];
  }

  /** One key never serves two operations: a different one starts only after an error or an eviction cleared the key. */
  lemma DifferentOperationWaitsForTheKey(s: State, i: nat, j: nat)
    requires Reachable(s) && i < j < |s.trace|
    requires s.trace[i].Started? && s.trace[j].Started? && s.trace[i].key == s.trace[j].key
    requires s.trace[i].fingerprint != s.trace[j].fingerprint
    ensures exists m :: i < m < j
              && (|| (s.trace[m].Ended? && s.trace[m].key == s.trace[i].key && s.trace[m].answer.Err?)
                  || (s.trace[m].Evicted? && s.trace[i].key in s.trace[m].keys))
  {
    ReachableInv(s);
    var before := s.trace[..j];
    assert EventOk(before, s.trace[j]);
    assert before[i] == s.trace[i];
    var m :| i < m < |before| && m >= 0 && Clears(before[m], before[i].key);
    assert before[m] == s.trace[m];
  }

  /** A key that still holds a record has not been started again since that record's start. */
  lemma RetainedIsTheLastStart(s: State, k: AttemptKey, j: nat)
    requires Reachable(s) && k in s.table.entries
    requires j < |s.trace| && s.trace[j].Started? && s.trace[j].key == k
    ensures s.trace[j].id <= s.table.entries[k]
  {
    ReachableInv(s);
  }

  /**
   Replay agreement: a waiter's answer is the one answer the owner of the same key published, and that owner ran the
   very same operation.
   */
  lemma WaitersGetTheOwnersAnswer(s: State, j: nat, request: Request, arguments: Bytes)
    requires Reachable(s) && j < |s.trace| && s.trace[j].Replayed?
    requires s.trace[j].fingerprint == RetryFingerprint(request, arguments)
    ensures exists i, m :: 0 <= i < j && 0 <= m < j
              && s.trace[i].Started? && s.trace[i].key == s.trace[j].key && s.trace[i].id == s.trace[j].id
              && s.trace[i].fingerprint == RetryFingerprint(request, arguments)
              && s.trace[m].Ended? && s.trace[m].id == s.trace[j].id && s.trace[m].answer == s.trace[j].answer
    ensures forall m :: 0 <= m < |s.trace| && s.trace[m].Ended? && s.trace[m].id == s.trace[j].id ==>
              s.trace[m].answer == s.trace[j].answer
  {
    ReachableInv(s);
    var i := ReplayFollowsStart(s.trace, j);
    var m := ReplayFollowsEnd(s.trace, j);
  }

  lemma ReplayFollowsStart(trace: seq<Event>, j: nat) returns (i: nat)
    requires TraceOk(trace) && j < |trace| && trace[j].Replayed?
    ensures i < j && Starts(trace[i], trace[j].key, trace[j].fingerprint, trace[j].id)
  {
    var before := trace[..j];
    assert EventOk(before, trace[j]);
    i :| 0 <= i < |before| && Starts(before[i], trace[j].key, trace[j].fingerprint, trace[j].id);
  }

  lemma ReplayFollowsEnd(trace: seq<Event>, j: nat) returns (m: nat)
    requires TraceOk(trace) && j < |trace| && trace[j].Replayed?
    ensures m < j && Publishes(trace[m], trace[j].key, trace[j].id, trace[j].answer)
  {
    var before := trace[..j];
    assert EventOk(before, trace[j]);
    m :| 0 <= m < |before| && Publishes(before[m], trace[j].key, trace[j].id, trace[j].answer);
  }

  lemma EvictionsFollowEnds(trace: seq<Event>, i: nat, j: nat)
    requires TraceOk(trace) && i < j < |trace| && trace[i].Started? && trace[j].Evicted?
             && trace[i].key in trace[j].keys
    ensures exists m :: i < m < j && trace[m].Ended? && trace[m].id == trace[i].id
  {
    var before := trace[..j];
    assert EventOk(before, trace[j]);
    assert before[i] == trace[i];
    var m :| i < m < |before| && m >= 0 && Ends(before[m], before[i].id);
    assert trace[m] == before[m];
  }

  /** An owner and a waiter that share an attempt asked for the same operation; only the server-side risk may differ. */
  lemma SharersAskForTheSameOperation(s: State, i: nat, j: nat, owner: Call, waiter: Call)
    requires Reachable(s) && i < |s.trace| && j < |s.trace|
    requires s.trace[i].Started? && s.trace[j].Replayed? && s.trace[i].id == s.trace[j].id
    requires RequestValid(owner.request) && RequestValid(waiter.request) && Representable(owner)
             && Representable(waiter)
    requires s.trace[i].fingerprint == RetryFingerprint(owner.request, owner.arguments)
    requires s.trace[j].fingerprint == RetryFingerprint(waiter.request, waiter.arguments)
    ensures owner.request == waiter.request.(risk := owner.request.risk) && owner.arguments == waiter.arguments
    ensures s.trace[i].key == s.trace[j].key
  {
    ReachableInv(s);
    SharersShareTheRecord(s.table.records, s.trace, i, j);
    RetryFingerprintInjective(owner, waiter);
  }

  lemma SharersShareTheRecord(records: seq<Attempt>, trace: seq<Event>, i: nat, j: nat)
    requires TraceOk(trace) && Recorded(records, trace) && i < |trace| && j < |trace|
    requires trace[i].Started? && trace[j].Replayed? && trace[i].id == trace[j].id
    ensures trace[i].key == trace[j].key && trace[i].fingerprint == trace[j].fingerprint
  {
    var n := ReplayFollowsStart(trace, j);
  }

  /** Nothing in flight is ever evicted: every attempt of an evicted key had already ended. */
  lemma EvictionSparesAttemptsInFlight(s: State, i: nat, j: nat)
    requires Reachable(s) && i < j < |s.trace| && s.trace[i].Started?
    requires s.trace[j].Evicted? && s.trace[i].key in s.trace[j].keys
    ensures exists m :: i < m < j && s.trace[m].Ended? && s.trace[m].id == s.trace[i].id
  {
    ReachableInv(s);
    EvictionsFollowEnds(s.trace, i, j);
  }
}
