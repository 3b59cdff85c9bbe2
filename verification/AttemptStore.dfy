/** The retry table as the program keeps it: shared attempt records, a map and a queue behind one lock. */
module AttemptStore {
  import opened Wrappers
  import opened Framing
  import opened Routing
  import opened Attempts

  /** An attempt record. The table and every waiter hold references to the same object. */
  class Entry {
    ghost const id: nat
    ghost const owner: nat
    ghost const key: AttemptKey
    const fingerprint: Fingerprint
    var closes: nat
    var released: bool
    var decision: Decision
    var invoked: bool
    var result: Option<ToolResult>
    var err: Option<AttemptError>

    constructor (fingerprint: Fingerprint, ghost id: nat, ghost owner: nat, ghost key: AttemptKey)
      ensures this.id == id && Value() == FreshAttempt(owner, key, fingerprint)
    {
      this.fingerprint, this.id, this.owner, this.key := fingerprint, id, owner, key;
      closes, released, decision, invoked, result, err := 0, false, Deny(InvalidPolicy), false, None, None;
    }

    ghost function Value(): Attempt
      reads this
    {
      Attempt(owner, key, fingerprint, closes, released, decision, invoked, result, err)
    }

    /** Publish the owner's outcome and close the done channel. */
    method Settle(answer: Answer)
      modifies this
      ensures Value() == Settled(old(Value()), answer)
    {
      match answer {
        case Ok(x) =>
          err, decision, invoked, result := None, x.decision, x.invoked, x.result;
          released := x.decision.status == ApprovalRequired;
        case Err(e) => err := Some(e);
      }
      closes := closes + 1;
    }

    /** What a waiter reads once the done channel is closed. */
    method ReplayExecution() returns (answer: Answer)
      ensures answer == Replay(Value())
    {
      if err.Some? {
        return Err(err.value);
      }
      return Ok(ExecutionResult(decision, invoked, result));
    }
  }

  class Store {
    var entries: map<AttemptKey, Entry>
    var completed: seq<AttemptKey>
    const maxEntries: nat
    /** Every record ever made, in the order of creation. */
    ghost var made: seq<Entry>

    ghost predicate Valid()
      reads this
    {
      && (forall i :: 0 <= i < |made| ==> made[i].id == i)
      && (forall k :: k in entries ==> entries[k] in made)
    }

    ghost function Held(): map<AttemptKey, nat>
      reads this
    {
      map k | k in entries :: entries[k].id
    }

    ghost function Values(): (r: seq<Attempt>)
      reads this, made
      ensures |r| == |made| && forall i :: 0 <= i < |made| ==> r[i] == made[i].Value()
    {
      seq(|made|, i requires 0 <= i < |made| reads this, made => made[i].Value())
    }

    ghost function View(): Table
      reads this, made
    {
      Table(Held(), completed, maxEntries, Values())
    }

    constructor (maxEntries: int)
      ensures Valid() && View() == NewTable(maxEntries)
    {
      this.maxEntries := ReplayLimit(maxEntries);
      entries, completed, made := map[], [], [];
    }

    /** Keep every queued key but one, in order. */
    method RemoveCompletedKeyLocked(key: AttemptKey)
      modifies this`completed
      ensures completed == Without(old(completed), key)
    {
      var filtered: seq<AttemptKey> := [];
      var i := 0;
      while i < |completed|
        invariant 0 <= i <= |completed|
        invariant completed == old(completed)
        invariant filtered + Without(completed[i..], key) == Without(old(completed), key)
      {
        var existing := completed[i];
        ghost var rest := completed[i..];
        assert rest[0] == existing && rest[1..] == completed[i + 1..];
        if existing != key {
          filtered := filtered + [existing];
        }
        i := i + 1;
      }
      assert completed[i..] == [];
      completed := filtered;
    }

    method DropOldest()
      requires Valid() && completed != []
      modifies this`entries, this`completed
      ensures Valid() && |completed| < |old(completed)|
      ensures View() == old(View()).(completed := old(completed)[1..],
                                     entries := old(View()).entries - {old(completed)[0]})
    {
      var oldest := completed[0];
      completed := completed[1..];
      entries := entries - {oldest};
      assert Held() == old(Held()) - {oldest};
      assert Values() == old(Values());
    }

    /** Evict the oldest finished keys until a new one fits. */
    method MakeRoomLocked() returns (ok: bool)
      requires Valid()
      modifies this`entries, this`completed
      ensures Valid() && View() == MadeRoom(old(View()))
      ensures ok == (|View().entries| < maxEntries)
    {
      HeldSize();
      while |entries| >= maxEntries && |completed| > 0
        invariant Valid() && MadeRoom(View()) == MadeRoom(old(View()))
        invariant |entries| == |View().entries|
        decreases |completed|
      {
        DropOldest();
        HeldSize();
      }
      return |entries| < maxEntries;
    }

    lemma HeldSize()
      ensures |Held()| == |entries|
    {
      assert Held().Keys == entries.Keys;
    }

    method Insert(ghost owner: nat, key: AttemptKey, fingerprint: Fingerprint) returns (attempt: Entry)
      requires Valid()
      modifies this`entries, this`made
      ensures Valid() && View() == Inserted(old(View()), owner, key, fingerprint)
      ensures attempt in made && attempt.id == |old(made)| && fresh(attempt)
    {
      attempt := new Entry(fingerprint, |made|, owner, key);
      made := made + [attempt];
      entries := entries[key := attempt];
      assert Held() == old(Held())[key := attempt.id];
      assert Values() == old(Values()) + [FreshAttempt(owner, key, fingerprint)];
    }

    lemma EntryOf(key: AttemptKey)
      requires Valid() && key in entries
      ensures key in View().entries && View().entries[key] == entries[key].id < |View().records|
      ensures View().records[View().entries[key]] == entries[key].Value()
    {
    }

    /** A released key runs again: its queue entry goes, and a new record takes the place of the old one. */
    method Reclaim(ghost owner: nat, key: AttemptKey, fingerprint: Fingerprint) returns (attempt: Entry)
      requires Valid()
      modifies this
      ensures Valid()
      ensures View() == Inserted(old(View()).(completed := Without(old(completed), key)), owner, key, fingerprint)
      ensures attempt in made && attempt.id == |old(made)|
    {
      RemoveCompletedKeyLocked(key);
      assert View() == old(View()).(completed := Without(old(completed), key));
      attempt := Insert(owner, key, fingerprint);
    }

    /**
     The first locked section of an execution: what the caller does next, and the record it does it with.
     */
    method Begin(ghost owner: nat, key: AttemptKey, fingerprint: Fingerprint)
      returns (turn: Turn, attempt: Entry?, ghost begun: Begun)
      requires Valid()
      modifies this
      ensures Valid() && (View(), begun) == BeginIn(old(View()), owner, key, fingerprint)
      ensures turn == TurnFor(begun)
      ensures turn.Refused? <==> attempt == null
      ensures attempt != null ==> attempt in made && attempt.id == begun.id
    {
      if key in entries {
        var existing := entries[key];
        EntryOf(key);
        if existing.fingerprint != fingerprint {
          return Refused(KeyConflict), null, Conflict;
        }
        if existing.released {
          attempt := Reclaim(owner, key, fingerprint);
          return Run, attempt, Owns(attempt.id);
        }
        return Wait, existing, Waits(existing.id);
      }
      assert key !in View().entries;
      var ok := MakeRoomLocked();
      if !ok {
        return Refused(NoCapacity), null, Full;
      }
      attempt := Insert(owner, key, fingerprint);
      return Run, attempt, Owns(attempt.id);
    }

    /** The second locked section: publish the owner's outcome to every waiter and close the done channel. */
    method Finish(key: AttemptKey, attempt: Entry, answer: Answer)
      requires Valid() && attempt in made
      modifies this`entries, this`completed, attempt
      ensures Valid() && attempt.id < |old(View()).records| && View() == FinishIn(old(View()), key, attempt.id, answer)
    {
      attempt.Settle(answer);
      assert Values() == old(Values())[attempt.id := Settled(old(attempt.Value()), answer)];
      assert Held() == old(Held());
      if answer.Ok? {
        completed := completed + [key];
      } else {
        entries := entries - {key};
        assert Held() == old(Held()) - {key};
      }
    }
  }

  /** What a caller does after the first locked section. */
  datatype Turn = Refused(error: AttemptError) | Wait | Run

  function TurnFor(begun: Begun): Turn {
    match begun
    case Conflict => Refused(KeyConflict)
    case Full => Refused(NoCapacity)
    case Waits(_) => Wait
    case Owns(_) => Run
  }
}
