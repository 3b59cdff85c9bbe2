/**
 Any number of processes saving policies to one file: a lock file, a fresh load under the lock, an atomic replace, and
 only then the process's own memory. Any step may fail and any process may crash between any two steps.
 */
module PolicyProcesses {
  import opened Wrappers
  import opened Routing
  import opened PolicyFile

  datatype Writer =
    | Idle
    | Waiting(scope: Scope, policy: Policy)                             // validated, wants the lock
    | Holding(scope: Scope, policy: Policy)                             // has the lock
    | Loaded(scope: Scope, policy: Policy, next: Policies)              // has loaded the file and changed the map
    | Written(scope: Scope, policy: Policy, next: Policies, entries: seq<Scoped>)   // the temporary file is complete
    | Replaced(scope: Scope, policy: Policy, next: Policies, at: nat)   // the file is replaced, the lock still held
    | Unlocked(scope: Scope, policy: Policy, next: Policies, at: nat)   // memory is still the old one

  /** `seen` is how many commits the memory reflects. */
  datatype Process = Process(memory: Policies, seen: nat, writer: Writer)

  datatype Commit = Commit(scope: Scope, policy: Policy)

  /** The file, its lock, the processes, and the commits in the order in which the file was replaced. */
  datatype State = State(file: File, lock: Option<nat>, processes: map<nat, Process>, log: seq<Commit>)

  datatype Action =
    | Boot(p: nat)
    | Save(p: nat, scope: Scope, policy: Policy)
    | Acquire(p: nat)
    | Read(p: nat)
    | WriteTemp(p: nat, entries: seq<Scoped>)       // what the map iteration and the sort produced
    | Replace(p: nat)
    | Unlock(p: nat)
    | Publish(p: nat)
    | Fail(p: nat)                                  // any error before the file is replaced
    | Crash(p: nat)

  function Fold(log: seq<Commit>): Policies {
    if log == [] then map[] else Fold(log[..|log| - 1])[log[|log| - 1].scope := log[|log| - 1].policy]
  }

  predicate HoldsLock(w: Writer) { w.Holding? || w.Loaded? || w.Written? || w.Replaced? }

  function With(s: State, p: nat, w: Writer): State
    requires p in s.processes
  {
    s.(processes := s.processes[p := s.processes[p].(writer := w)])
  }

  ghost function Apply(s: State, a: Action): State {
    if a.Boot? then
      match LoadStore(s.file)
      case Ok(m) => if a.p in s.processes then s else s.(processes := s.processes[a.p := Process(m, |s.log|, Idle)])
      case Err(_) => s
    else if a.p !in s.processes then s
    else
      var p, w := a.p, s.processes[a.p].writer;
      match a
      case Save(_, scope, policy) =>
        if w.Idle? && ScopeValid(scope) && PolicyValid(policy) && RulesInScope(scope, policy) then
          With(s, p, Waiting(scope, policy))
        else s
      case Acquire(_) =>
        if w.Waiting? && s.lock.None? then With(s, p, Holding(w.scope, w.policy)).(lock := Some(p)) else s
      case Read(_) =>
        if !w.Holding? then s
        else (match LoadStore(s.file)
              case Ok(m) => With(s, p, Loaded(w.scope, w.policy, m[w.scope := w.policy]))
              case Err(_) => With(s, p, Idle).(lock := None))
      case WriteTemp(_, entries) =>
        if w.Loaded? && IsSnapshot(entries, w.next) then With(s, p, Written(w.scope, w.policy, w.next, entries)) else s
      case Replace(_) =>
        if w.Written? then
          With(s, p, Replaced(w.scope, w.policy, w.next, |s.log| + 1))
            .(file := Stored(VERSION, w.entries), log := s.log + [Commit(w.scope, w.policy)])
        else s
      case Unlock(_) =>
        if w.Replaced? then With(s, p, Unlocked(w.scope, w.policy, w.next, w.at)).(lock := None) else s
      case Publish(_) =>
        if w.Unlocked? then s.(processes := s.processes[p := Process(w.next, w.at, Idle)]) else s
      case Fail(_) =>
        if w.Waiting? then With(s, p, Idle)
        else if w.Holding? || w.Loaded? || w.Written? then With(s, p, Idle).(lock := None) else s
      case Crash(_) =>
        s.(processes := s.processes - {p}, lock := if HoldsLock(w) then None else s.lock)
  }

  ghost function After(s: State, actions: seq<Action>): State {
    if actions == [] then s else Apply(After(s, actions[..|actions| - 1]), actions[|actions| - 1])
  }

  const INITIAL := State(Missing, None, map[], [])

  // ---- What every step keeps ----

  predicate MemoryOk(log: seq<Commit>, q: Process) {
    q.seen <= |log| && q.memory == Fold(log[..q.seen])
  }

  ghost predicate WriterOk(log: seq<Commit>, q: Process) {
    match q.writer
    case Idle => true
    case Waiting(scope, policy) => EntryValid(Scoped(scope, policy))
    case Holding(scope, policy) => EntryValid(Scoped(scope, policy))
    case Loaded(scope, policy, next) => EntryValid(Scoped(scope, policy)) && next == Fold(log)[scope := policy]
    case Written(scope, policy, next, entries) =>
      EntryValid(Scoped(scope, policy)) && next == Fold(log)[scope := policy] && IsSnapshot(entries, next)
    case Replaced(scope, policy, next, at) => PublishOk(log, q.seen, scope, policy, next, at)
    case Unlocked(scope, policy, next, at) => PublishOk(log, q.seen, scope, policy, next, at)
  }

  predicate PublishOk(log: seq<Commit>, seen: nat, scope: Scope, policy: Policy, next: Policies, at: nat) {
    && seen < at <= |log| && next == Fold(log[..at]) && log[at - 1] == Commit(scope, policy)
  }

  ghost predicate ProcessesOk(log: seq<Commit>, processes: map<nat, Process>) {
    forall p :: p in processes ==> MemoryOk(log, processes[p]) && WriterOk(log, processes[p])
  }

  ghost predicate LockOk(lock: Option<nat>, processes: map<nat, Process>) {
    && (forall p :: p in processes && HoldsLock(processes[p].writer) ==> lock == Some(p))
    && (lock.Some? ==> lock.value in processes && HoldsLock(processes[lock.value].writer))
  }

  ghost predicate FileOk(file: File, log: seq<Commit>) {
    LoadStore(file) == Ok(Fold(log)) && AllValid(Fold(log))
  }

  ghost predicate Inv(s: State) {
    FileOk(s.file, s.log) && LockOk(s.lock, s.processes) && ProcessesOk(s.log, s.processes)
  }

  lemma FoldSnoc(log: seq<Commit>, c: Commit)
    ensures Fold(log + [c]) == Fold(log)[c.scope := c.policy]
  {
    assert (log + [c])[..|log + [c]| - 1] == log;
  }

  /** A commit leaves what was seen before it as it was. */
  lemma CommitKeepsProcess(log: seq<Commit>, q: Process, c: Commit)
    requires MemoryOk(log, q) && WriterOk(log, q) && !q.writer.Loaded? && !q.writer.Written?
    ensures MemoryOk(log + [c], q) && WriterOk(log + [c], q)
  {
    assert (log + [c])[..q.seen] == log[..q.seen];
    if q.writer.Replaced? || q.writer.Unlocked? {
      assert (log + [c])[..q.writer.at] == log[..q.writer.at];
    }
  }

  lemma CommitKeepsFile(file: File, log: seq<Commit>, c: Commit, entries: seq<Scoped>)
    requires FileOk(file, log) && EntryValid(Scoped(c.scope, c.policy))
    requires IsSnapshot(entries, Fold(log)[c.scope := c.policy])
    ensures FileOk(Stored(VERSION, entries), log + [c])
  {
    FoldSnoc(log, c);
    ValidSnoc(Fold(log), Scoped(c.scope, c.policy));
    PersistedLoadsBack(entries, Fold(log)[c.scope := c.policy]);
  }

  /** The process that replaced the file has a commit to publish. */
  lemma ReplacerKeeps(log: seq<Commit>, q: Process, c: Commit)
    requires MemoryOk(log, q) && WriterOk(log, q) && q.writer.Written?
    requires c == Commit(q.writer.scope, q.writer.policy)
    ensures var after := q.(writer := Replaced(c.scope, c.policy, q.writer.next, |log| + 1));
            MemoryOk(log + [c], after) && WriterOk(log + [c], after)
  {
    var longer := log + [c];
    FoldSnoc(log, c);
    assert longer[..|longer|] == longer && longer[..q.seen] == log[..q.seen];
  }

  lemma ReplaceKeeps(s: State, p: nat)
    requires Inv(s) && p in s.processes && s.processes[p].writer.Written?
    ensures Inv(Apply(s, Replace(p)))
  {
    var w := s.processes[p].writer;
    var c := Commit(w.scope, w.policy);
    assert MemoryOk(s.log, s.processes[p]) && WriterOk(s.log, s.processes[p]);
    CommitKeepsFile(s.file, s.log, c, w.entries);
    ReplacerKeeps(s.log, s.processes[p], c);
    forall o | o in s.processes && o != p
      ensures MemoryOk(s.log + [c], s.processes[o]) && WriterOk(s.log + [c], s.processes[o])
    {
      assert MemoryOk(s.log, s.processes[o]) && WriterOk(s.log, s.processes[o]);
      assert !HoldsLock(s.processes[o].writer);
      CommitKeepsProcess(s.log, s.processes[o], c);
    }
  }

  lemma BootKeeps(s: State, p: nat)
    requires Inv(s)
    ensures Inv(Apply(s, Boot(p)))
  {
    assert s.log[..|s.log|] == s.log;
  }

  lemma LockStepsKeep(s: State, a: Action)
    requires Inv(s) && (a.Acquire? || a.Unlock? || a.Fail? || a.Crash?)
    ensures Inv(Apply(s, a))
  {
    if a.p in s.processes { assert MemoryOk(s.log, s.processes[a.p]) && WriterOk(s.log, s.processes[a.p]); }
  }

  lemma LocalStepsKeep(s: State, a: Action)
    requires Inv(s) && (a.Save? || a.Read? || a.WriteTemp? || a.Publish?)
    ensures Inv(Apply(s, a))
  {
    if a.p in s.processes { assert MemoryOk(s.log, s.processes[a.p]) && WriterOk(s.log, s.processes[a.p]); }
  }

  lemma StepKeeps(s: State, a: Action)
    requires Inv(s)
    ensures Inv(Apply(s, a))
  {
    match a
    case Boot(p) => BootKeeps(s, p);
    case Replace(p) => if p in s.processes && s.processes[p].writer.Written? { ReplaceKeeps(s, p); }
    case Acquire(_) => LockStepsKeep(s, a);
    case Unlock(_) => LockStepsKeep(s, a);
    case Fail(_) => LockStepsKeep(s, a);
    case Crash(_) => LockStepsKeep(s, a);
    case _ => LocalStepsKeep(s, a);
  }

  lemma {:induction false} RunKeeps(actions: seq<Action>)
    ensures Inv(After(INITIAL, actions))
  {
    if actions != [] {
      RunKeeps(actions[..|actions| - 1]);
      StepKeeps(After(INITIAL, actions[..|actions| - 1]), actions[|actions| - 1]);
    }
  }

  // ---- The theorems ----

  ghost predicate Reachable(s: State) {
    exists actions: seq<Action> :: s == After(INITIAL, actions)
  }

  lemma ReachableInv(s: State)
    requires Reachable(s)
    ensures Inv(s)
  {
    var actions: seq<Action> :| s == After(INITIAL, actions);
    RunKeeps(actions);
  }

  /**
   In every reachable state, also in the middle of a save and after any crash, a loader without the lock gets exactly
   the commits so far applied in lock order: never a torn snapshot, never a missing or a foreign rule.
   */
  lemma DurableIsEveryCommitInOrder(s: State)
    requires Reachable(s)
    ensures LoadStore(s.file) == Ok(Fold(s.log)) && AllValid(Fold(s.log))
  {
    ReachableInv(s);
  }

  /** No update is lost: the stored policy of a scope is that of its last commit. */
  lemma {:induction false} FoldIsTheLastCommit(log: seq<Commit>, k: Scope)
    ensures k in Fold(log) <==> exists i :: 0 <= i < |log| && log[i].scope == k
    ensures forall i :: 0 <= i < |log| && log[i].scope == k && (forall j :: i < j < |log| ==> log[j].scope != k) ==>
              k in Fold(log) && Fold(log)[k] == log[i].policy
  {
    FoldHas(log, k);
    forall i | 0 <= i < |log| && log[i].scope == k && (forall j :: i < j < |log| ==> log[j].scope != k)
      ensures k in Fold(log) && Fold(log)[k] == log[i].policy
    {
      FoldTakes(log, k, i);
    }
  }

  lemma {:induction false} FoldHas(log: seq<Commit>, k: Scope)
    ensures k in Fold(log) <==> exists i :: 0 <= i < |log| && log[i].scope == k
  {
    if log != [] {
      FoldHas(log[..|log| - 1], k);
      assert log == log[..|log| - 1] + [log[|log| - 1]];
    }
  }

  lemma {:induction false} FoldTakes(log: seq<Commit>, k: Scope, i: nat)
    requires i < |log| && log[i].scope == k && forall j :: i < j < |log| ==> log[j].scope != k
    ensures k in Fold(log) && Fold(log)[k] == log[i].policy
  {
    if i < |log| - 1 {
      FoldTakes(log[..|log| - 1], k, i);
      assert log[|log| - 1].scope != k;
    }
  }

  /** Two processes never hold the lock together, and a commit builds on everything committed before it. */
  lemma CommitsAreSerialized(s: State, p: nat, q: nat)
    requires Reachable(s) && p in s.processes && q in s.processes
    requires HoldsLock(s.processes[p].writer) && HoldsLock(s.processes[q].writer)
    ensures p == q
    ensures s.processes[p].writer.Loaded? || s.processes[p].writer.Written? ==>
              s.processes[p].writer.next == Fold(s.log)[s.processes[p].writer.scope := s.processes[p].writer.policy]
  {
    ReachableInv(s);
    assert WriterOk(s.log, s.processes[p]);
  }

  /** A process's memory is always the durable map as it was at some commit, so it never mixes two versions. */
  lemma MemoryIsAPrefix(s: State, p: nat)
    requires Reachable(s) && p in s.processes
    ensures s.processes[p].seen <= |s.log| && s.processes[p].memory == Fold(s.log[..s.processes[p].seen])
  {
    ReachableInv(s);
    assert MemoryOk(s.log, s.processes[p]);
  }

  /** A finished save is durable, is in the saver's memory, and never moves that memory back. */
  lemma FinishedSaveIsSeen(s: State, p: nat)
    requires Reachable(s) && p in s.processes && s.processes[p].writer.Unlocked?
    ensures var w := s.processes[p].writer; var after := Apply(s, Publish(p));
            && Commit(w.scope, w.policy) in s.log
            && w.scope in after.processes[p].memory && after.processes[p].memory[w.scope] == w.policy
            && s.processes[p].seen < after.processes[p].seen && after.log == s.log && after.file == s.file
  {
    ReachableInv(s);
    assert WriterOk(s.log, s.processes[p]);
    var w := s.processes[p].writer;
    var log := s.log[..w.at];
    assert log == log[..w.at - 1] + [log[w.at - 1]];
    FoldSnoc(log[..w.at - 1], log[w.at - 1]);
  }

  /** A save starts exactly if scope and policy are valid and every rule lies inside the scope. */
  lemma SaveStartsExactlyWhenValid(s: State, p: nat, scope: Scope, policy: Policy)
    requires p in s.processes && s.processes[p].writer.Idle?
    ensures Apply(s, Save(p, scope, policy)) ==
            if EntryValid(Scoped(scope, policy)) then With(s, p, Waiting(scope, policy)) else s
  {
  }

  /** Up to the finished temporary file nothing is durable. */
  lemma SavePrepares(s: State, p: nat, scope: Scope, policy: Policy, entries: seq<Scoped>)
    requires Reachable(s) && p in s.processes && s.processes[p].writer.Idle? && s.lock.None?
    requires EntryValid(Scoped(scope, policy)) && IsSnapshot(entries, Fold(s.log)[scope := policy])
    ensures Apply(Apply(Apply(Apply(s, Save(p, scope, policy)), Acquire(p)), Read(p)), WriteTemp(p, entries))
            == With(s, p, Written(scope, policy, Fold(s.log)[scope := policy], entries)).(lock := Some(p))
  {
    DurableIsEveryCommitInOrder(s);
    SaveStartsExactlyWhenValid(s, p, scope, policy);
    var waiting := With(s, p, Waiting(scope, policy));
    var holding := With(s, p, Holding(scope, policy)).(lock := Some(p));
    assert Apply(waiting, Acquire(p)) == holding;
    var loaded := With(s, p, Loaded(scope, policy, Fold(s.log)[scope := policy])).(lock := Some(p));
    assert Apply(holding, Read(p)) == loaded;
  }

  lemma SavePublishes(s: State, p: nat, scope: Scope, policy: Policy, next: Policies, entries: seq<Scoped>)
    requires p in s.processes && s.processes[p].writer == Written(scope, policy, next, entries)
    ensures Apply(Apply(Apply(s, Replace(p)), Unlock(p)), Publish(p))
            == s.(file := Stored(VERSION, entries), lock := None, log := s.log + [Commit(scope, policy)],
                  processes := s.processes[p := Process(next, |s.log| + 1, Idle)])
  {
    var file, log := Stored(VERSION, entries), s.log + [Commit(scope, policy)];
    var replaced := With(s, p, Replaced(scope, policy, next, |s.log| + 1)).(file := file, log := log);
    assert Apply(s, Replace(p)) == replaced;
    var unlocked := With(s, p, Unlocked(scope, policy, next, |s.log| + 1)).(file := file, log := log, lock := None);
    assert Apply(replaced, Unlock(p)) == unlocked;
  }

  lemma CommittedLoads(s: State, scope: Scope, policy: Policy, entries: seq<Scoped>)
    requires Reachable(s) && EntryValid(Scoped(scope, policy)) && IsSnapshot(entries, Fold(s.log)[scope := policy])
    ensures LoadStore(Stored(VERSION, entries)) == Ok(Fold(s.log)[scope := policy])
  {
    ReachableInv(s);
    ValidSnoc(Fold(s.log), Scoped(scope, policy));
    PersistedLoadsBack(entries, Fold(s.log)[scope := policy]);
  }

  /** After a save, everything is as before but for the commit, which is durable and in the saver's memory. */
  ghost predicate Saved(s: State, p: nat, scope: Scope, policy: Policy, after: State) {
    var next := Fold(s.log)[scope := policy];
    && after.log == s.log + [Commit(scope, policy)] && after.lock.None? && LoadStore(after.file) == Ok(next)
    && after.processes == s.processes[p := Process(next, |after.log|, Idle)]
  }

  lemma PublishedIsSaved(s: State, p: nat, scope: Scope, policy: Policy, entries: seq<Scoped>)
    requires p in s.processes && LoadStore(Stored(VERSION, entries)) == Ok(Fold(s.log)[scope := policy])
    ensures var prepared := With(s, p, Written(scope, policy, Fold(s.log)[scope := policy], entries)).(lock := Some(p));
            Saved(s, p, scope, policy, Apply(Apply(Apply(prepared, Replace(p)), Unlock(p)), Publish(p)))
  {
    var next := Fold(s.log)[scope := policy];
    SavePublishes(With(s, p, Written(scope, policy, next, entries)).(lock := Some(p)), p, scope, policy, next,
                  entries);
  }

  /** A save nobody disturbs commits exactly its own change, on top of all others, and leaves the lock free. */
  lemma UndisturbedSaveCommits(s: State, p: nat, scope: Scope, policy: Policy, entries: seq<Scoped>)
    requires Reachable(s) && p in s.processes && s.processes[p].writer.Idle? && s.lock.None?
    requires EntryValid(Scoped(scope, policy)) && IsSnapshot(entries, Fold(s.log)[scope := policy])
    ensures var prepared := Apply(Apply(Apply(Apply(s, Save(p, scope, policy)), Acquire(p)), Read(p)),
                                  WriteTemp(p, entries));
            Saved(s, p, scope, policy, Apply(Apply(Apply(prepared, Replace(p)), Unlock(p)), Publish(p)))
  {
    SavePrepares(s, p, scope, policy, entries);
    CommittedLoads(s, scope, policy, entries);
    PublishedIsSaved(s, p, scope, policy, entries);
  }
}
