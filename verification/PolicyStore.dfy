/** The policy store of one process: an in-memory snapshot, and the file behind it when there is one. */
module PolicyStore {
  import opened Wrappers
  import opened Routing
  import opened PolicyFile

  /** The policy file, replaced as a whole. */
  class Disk {
    var file: File

    constructor ()
      ensures file == Missing
    {
      file := Missing;
    }
  }

  class Store {
    var policies: Policies
    const disk: Disk?

    constructor InMemory()
      ensures policies == map[] && disk == null
    {
      policies, disk := map[], null;
    }

    /** Start from what the file holds; a file that does not load fails the start. */
    static method Open(disk: Disk) returns (r: Result<Store, StoreError>)
      ensures r.Ok? <==> LoadStore(disk.file).Ok?
      ensures r.Ok? ==> fresh(r.value) && r.value.disk == disk && Ok(r.value.policies) == LoadStore(disk.file)
    {
      var loaded := Load(disk.file);
      if loaded.Err? { return Err(loaded.error); }
      var store := new Store.Loaded(disk, loaded.value);
      return Ok(store);
    }

    constructor Loaded(disk: Disk, policies: Policies)
      ensures this.disk == disk && this.policies == policies
    {
      this.disk, this.policies := disk, policies;
    }

    /**
     Save one policy under its scope. Without a file the entry is replaced in memory; with one, the map the file holds
     is replaced with the entry changed, and becomes the memory only once it is durable. An error changes nothing.
     */
    method Save(scope: Scope, policy: Policy, writes: bool) returns (error: Option<StoreError>)
      modifies this`policies, disk
      ensures error.Some? ==> policies == old(policies) && (disk != null ==> disk.file == old(disk.file))
      ensures error.None? ==> EntryValid(Scoped(scope, policy))
      ensures error.None? && disk == null ==> policies == old(policies)[scope := policy]
      ensures error.None? && disk != null ==>
                && old(LoadStore(disk.file)).Ok?
                && policies == old(LoadStore(disk.file)).value[scope := policy]
                && LoadStore(disk.file) == Ok(policies) && AllValid(policies)
                && disk.file.Stored? && IsSnapshot(disk.file.entries, policies)
      ensures EntryValid(Scoped(scope, policy)) && (disk == null || (writes && old(LoadStore(disk.file)).Ok?)) ==>
                error.None?
    {
      if !ScopeValid(scope) { return Some(InvalidScope); }
      if !PolicyValid(policy) { return Some(InvalidPolicyInScope); }
      var inScope := CheckRules(scope, policy.rules);
      if !inScope { return Some(StoreError.ScopeMismatch); }
      if disk == null {
        policies := policies[scope := policy];
        return None;
      }
      var loaded := Load(disk.file);
      if loaded.Err? { return Some(loaded.error); }
      var next := loaded.value[scope := policy];
      var entries := Snapshot(next);
      if !writes { return Some(WriteFailed); }
      StoreLoads(disk.file);
      ValidSnoc(loaded.value, Scoped(scope, policy));
      PersistedLoadsBack(entries, next);
      disk.file := Stored(VERSION, entries);
      policies := next;
      return None;
    }

    method CheckRules(scope: Scope, rules: seq<Rule>) returns (ok: bool)
      ensures ok == RulesInScope(scope, Policy(rules))
    {
      for i := 0 to |rules|
        invariant forall j :: 0 <= j < i ==>
                    rules[j].project == scope.project && rules[j].providerId == scope.providerId
      {
        if rules[i].project != scope.project || rules[i].providerId != scope.providerId {
          assert rules[i] in rules;
          return false;
        }
      }
      return true;
    }

    method Get(scope: Scope) returns (r: Result<Policy, StoreError>)
      ensures r == if !ScopeValid(scope) then Err(InvalidScope)
                   else if scope in policies then Ok(policies[scope]) else Err(NotFound)
    {
      if !ScopeValid(scope) { return Err(InvalidScope); }
      if scope !in policies { return Err(NotFound); }
      return Ok(policies[scope]);
    }
  }

  lemma StoreLoads(file: File)
    ensures LoadStore(file).Ok? ==> AllValid(LoadStore(file).value)
  {
    if file.Stored? { LoadedIsValid(file.entries); }
  }
}
