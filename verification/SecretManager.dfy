/** The connection manager's loops: maps walked in any order, connections changed in place, and the write-back. */
module SecretManager {
  import opened Wrappers
  import opened SecretMigration
  import Text

  /** Encrypt every non-blank secret. */
  method SaveLocal(key: nat, nonces: string -> nat, secrets: Secrets) returns (values: Secrets)
    ensures values == SaveSecrets(key, nonces, secrets)
  {
    values := map[];
    var left := secrets.Keys;
    while left != {}
      invariant left <= secrets.Keys
      invariant values ==
                map n | n in secrets && n !in left && !BlankSecret(secrets[n]) :: Envelope(key, nonces(n), secrets[n])
      decreases |left|
    {
      var name :| name in left;
      left := left - {name};
      if !BlankSecret(secrets[name]) {
        values := values[name := Envelope(key, nonces(name), secrets[name])];
      }
    }
  }

  /** Decrypt every non-blank secret, whichever comes first; the first that does not open ends the load. */
  method LoadLocal(key: Option<nat>, stored: Secrets) returns (r: Result<Loaded, SecretError>)
    ensures r == LoadSecrets(key, stored)
  {
    var values: Secrets := map[];
    var needsMigration := false;
    var left := stored.Keys;
    while left != {}
      invariant left <= stored.Keys && AllOpen(key, stored, left)
      invariant values == OpenedBut(stored, left) && needsMigration == PlainBut(stored, left)
      decreases |left|
    {
      var name :| name in left;
      var value := stored[name];
      OneMoreOpened(stored, left, name);
      left := left - {name};
      if BlankSecret(value) {
      } else if value.PlainText? {
        needsMigration := true;
        values := values[name := value];
      } else {
        if key.None? { return Err(KeyMissing); }
        if key.value != value.key { return Err(AuthenticationFailed); }
        values := values[name := value.inner];
      }
    }
    AllOpened(key, stored);
    return Ok(Loaded(values, needsMigration));
  }

  /** What a load has seen of a set of secrets when some names are left: all open, these values, plain text or not. */
  ghost predicate AllOpen(key: Option<nat>, stored: Secrets, left: set<string>) {
    forall n :: n in stored && n !in left ==> Opens(key, stored[n])
  }

  ghost function OpenedBut(stored: Secrets, left: set<string>): Secrets {
    map n | n in stored && n !in left && !BlankSecret(stored[n]) :: Opened(stored[n])
  }

  ghost predicate PlainBut(stored: Secrets, left: set<string>) {
    exists n :: n in stored && n !in left && !BlankSecret(stored[n]) && stored[n].PlainText?
  }

  lemma OneMoreOpened(stored: Secrets, left: set<string>, name: string)
    requires name in left && name in stored
    ensures OpenedBut(stored, left - {name}) ==
            if BlankSecret(stored[name]) then OpenedBut(stored, left)
            else OpenedBut(stored, left)[name := Opened(stored[name])]
    ensures PlainBut(stored, left - {name}) <==>
              PlainBut(stored, left) || (!BlankSecret(stored[name]) && stored[name].PlainText?)
  {
  }

  lemma AllOpened(key: Option<nat>, stored: Secrets)
    requires AllOpen(key, stored, {})
    ensures LoadSecrets(key, stored) == Ok(Loaded(OpenedBut(stored, {}), PlainBut(stored, {})))
  {
    assert forall n :: n in stored ==> Opens(key, stored[n]);
    assert OpenedBut(stored, {}) == map n | n in stored && !BlankSecret(stored[n]) :: Opened(stored[n]);
  }

  method HasNonEmptySecrets(secrets: Secrets) returns (found: bool)
    ensures found == HasNonEmpty(secrets)
  {
    var left := secrets.Keys;
    while left != {}
      invariant left <= secrets.Keys && forall n :: n in secrets && n !in left ==> BlankSecret(secrets[n])
      decreases |left|
    {
      var name :| name in left;
      if !BlankSecret(secrets[name]) { return true; }
      left := left - {name};
    }
    return false;
  }

  method LocalEncryptedSecretRefs(id: string, authMethod: string, secrets: Secrets) returns (refs: Refs)
    ensures refs == LocalRefs(id, authMethod, secrets)
  {
    refs := map[];
    if Text.Blank(id) { return; }
    var fields := SecretFields(authMethod);
    for i := 0 to |fields|
      invariant refs == RefsOf(id, fields[..i], secrets)
    {
      OneMoreRef(id, fields, i, secrets);
      if fields[i] in secrets && !BlankSecret(secrets[fields[i]]) {
        refs := refs[fields[i] := Ref(id, fields[i])];
      }
    }
    assert fields[..|fields|] == fields;
  }

  ghost function RefsOf(id: string, fields: seq<string>, secrets: Secrets): Refs {
    map f | f in fields && f in secrets && !BlankSecret(secrets[f]) :: Ref(id, f)
  }

  lemma OneMoreRef(id: string, fields: seq<string>, i: nat, secrets: Secrets)
    requires i < |fields|
    ensures RefsOf(id, fields[..i + 1], secrets) ==
            if fields[i] in secrets && !BlankSecret(secrets[fields[i]]) then
              RefsOf(id, fields[..i], secrets)[fields[i] := Ref(id, fields[i])]
            else RefsOf(id, fields[..i], secrets)
  {
    assert fields[..i + 1] == fields[..i] + [fields[i]];
  }

  /** Bring the references of one connection in line with its secrets, in place. */
  method ApplySecretReferenceDefaults(connections: array<Connection>, i: nat) returns (changed: bool)
    requires i < connections.Length
    modifies connections
    ensures (connections[i], changed) == WithDefaults(old(connections[i]))
    ensures forall j :: 0 <= j < connections.Length && j != i ==> connections[j] == old(connections[j])
  {
    var c := connections[i];
    if c.store != "" && c.store != LOCAL { return false; }
    var refs := LocalEncryptedSecretRefs(c.id, c.authMethod, c.secrets);
    if refs == map[] {
      changed := c.store != "" || c.refs != map[];
      connections[i] := c.(store := "", refs := map[]);
      return;
    }
    changed := false;
    if c.store == "" {
      c := c.(store := LOCAL);
      changed := true;
    }
    if c.refs != refs {
      c := c.(refs := refs);
      changed := true;
    }
    connections[i] := c;
  }

  method UnlockOne(key: Option<nat>, connection: Connection) returns (r: OneLoad)
    ensures r == Unlocked(key, connection)
  {
    var c := connection.(store := Text.TrimSpace(connection.store));
    if c.secrets == map[] { return Ok((c, false)); }
    var loaded := LoadLocal(key, c.secrets);
    if loaded.Err? { return Err(loaded.error); }
    var some := HasNonEmptySecrets(loaded.value.values);
    return Ok((c.(secrets := loaded.value.values), loaded.value.needsMigration && some));
  }

  ghost function Unlocks(key: Option<nat>, file: seq<Connection>): (r: seq<OneLoad>)
    ensures |r| == |file| && forall i :: 0 <= i < |file| ==> r[i] == Unlocked(key, file[i])
  {
    seq(|file|, i requires 0 <= i < |file| => Unlocked(key, file[i]))
  }

  ghost predicate AllOk(loads: seq<OneLoad>, n: int) {
    forall j :: 0 <= j < n && j < |loads| ==> loads[j].Ok?
  }

  ghost predicate AnyNeeds(loads: seq<OneLoad>, from: int, to: int) {
    exists j :: 0 <= from <= j < to && j < |loads| && loads[j].Ok? && loads[j].value.1
  }

  ghost predicate Fails(loads: seq<OneLoad>, e: SecretError) {
    exists i :: 0 <= i < |loads| && loads[i] == Err(e) && AllOk(loads, i)
  }

  lemma AnyNeedsSnoc(loads: seq<OneLoad>, i: nat)
    requires i < |loads| && loads[i].Ok?
    ensures AnyNeeds(loads, 0, i + 1) <==> AnyNeeds(loads, 0, i) || loads[i].value.1
  {
  }

  /** Decrypt the secrets of every connection in place. */
  method LoadConnectionSecrets(connections: array<Connection>, key: Option<nat>) returns (r: Result<bool, SecretError>)
    modifies connections
    ensures var loads := Unlocks(key, old(connections[..]));
            match r
            case Err(e) => Fails(loads, e)
            case Ok(needed) =>
              && AllOk(loads, |loads|)
              && (forall i :: 0 <= i < connections.Length ==> connections[i] == loads[i].value.0)
              && (needed <==> AnyNeeds(loads, 0, |loads|))
  {
    ghost var loads := Unlocks(key, connections[..]);
    var needsMigration := false;
    for i := 0 to connections.Length
      invariant AllOk(loads, i)
      invariant forall j :: 0 <= j < i ==> connections[j] == loads[j].value.0
      invariant forall j :: i <= j < connections.Length ==> connections[j] == old(connections[j])
      invariant needsMigration <==> AnyNeeds(loads, 0, i)
    {
      var one := UnlockOne(key, connections[i]);
      assert one == loads[i];
      if one.Err? {
        assert Fails(loads, one.error);
        return Err(one.error);
      }
      AnyNeedsSnoc(loads, i);
      connections[i] := one.value.0;
      if one.value.1 { needsMigration := true; }
    }
    return Ok(needsMigration);
  }

  /** A connection that does not decrypt does not load, and the first of them is the file's error. */
  lemma FailureIsTheLoads(key: Option<nat>, file: seq<Connection>, e: SecretError)
    requires Fails(Unlocks(key, file), e)
    ensures LoadAll(key, file) == Err(e)
  {
    var loads := Unlocks(key, file);
    var i :| 0 <= i < |loads| && loads[i] == Err(e) && AllOk(loads, i);
    FailureEndsGather(Loads(key, file), i);
  }

  lemma {:induction false} FailureEndsGather(loads: seq<OneLoad>, i: nat)
    requires i < |loads| && loads[i].Err? && forall j :: 0 <= j < i ==> loads[j].Ok?
    ensures Gather(loads) == Err(loads[i].error)
  {
    var before := loads[..|loads| - 1];
    if i < |before| {
      FailureEndsGather(before, i);
    } else {
      GatherIs(before);
    }
  }

  method ApplySecretReferenceDefaultsToAll(connections: array<Connection>) returns (changed: bool)
    modifies connections
    ensures forall i :: 0 <= i < connections.Length ==> connections[i] == WithDefaults(old(connections[i])).0
    ensures changed <==> exists i :: 0 <= i < connections.Length && WithDefaults(old(connections[i])).1
  {
    changed := false;
    for i := 0 to connections.Length
      invariant forall j :: 0 <= j < i ==> connections[j] == WithDefaults(old(connections[j])).0
      invariant forall j :: i <= j < connections.Length ==> connections[j] == old(connections[j])
      invariant changed <==> exists j :: 0 <= j < i && WithDefaults(old(connections[j])).1
    {
      var one := ApplySecretReferenceDefaults(connections, i);
      if one { changed := true; }
    }
  }

  /** Unlocking everything and then fixing everything is the load of the whole file. */
  lemma LoadInTwoPasses(key: Option<nat>, file: seq<Connection>, result: seq<Connection>, needed: bool, changed: bool)
    requires var loads := Unlocks(key, file);
             && AllOk(loads, |loads|) && (needed <==> AnyNeeds(loads, 0, |loads|))
             && |result| == |file|
             && (forall i :: 0 <= i < |file| ==> result[i] == WithDefaults(loads[i].value.0).0)
             && (changed <==> exists i :: 0 <= i < |file| && WithDefaults(loads[i].value.0).1)
    ensures LoadAll(key, file) == Ok((result, needed || changed))
  {
    var unlocks, loads := Unlocks(key, file), Loads(key, file);
    forall i | 0 <= i < |file|
      ensures loads[i] == Ok((result[i], unlocks[i].value.1 || WithDefaults(unlocks[i].value.0).1))
    {
      assert unlocks[i].Ok?;
    }
    GatherIs(loads);
    assert LoadAll(key, file).value.0 == result;
  }

  /** Encrypt the secrets of every connection again, into fresh records. */
  method StoreConnectionSecrets(connections: seq<Connection>, key: nat, nonces: nat -> string -> nat)
    returns (out: seq<Connection>)
    ensures out == StoreAll(key, nonces, connections)
  {
    out := [];
    for i := 0 to |connections|
      invariant |out| == i && forall j :: 0 <= j < i ==> out[j] == StoreOne(key, nonces(j), connections[j])
    {
      var next := StoreOneConnection(connections[i], key, nonces(i));
      out := out + [next];
    }
  }

  method StoreOneConnection(c: Connection, key: nat, nonces: string -> nat) returns (next: Connection)
    ensures next == StoreOne(key, nonces, c)
  {
    next := c.(store := Text.TrimSpace(c.store));
    if c.secrets == map[] { return; }
    var values := SaveLocal(key, nonces, c.secrets);
    var refs: Refs := map[];
    if values != map[] {
      refs := LocalEncryptedSecretRefs(c.id, c.authMethod, values);
    }
    next := next.(secrets := values, refs := RefsMetadata(SecretFields(c.authMethod), MergeRefs(c.refs, refs)));
    if next.secrets != map[] || next.refs != map[] {
      next := next.(store := LOCAL);
    }
  }

  class Manager {
    /** The connections file. */
    var file: seq<Connection>

    constructor (file: seq<Connection>)
      ensures this.file == file
    {
      this.file := file;
    }

    /** Read, decrypt, and fix the references. */
    method LoadSnapshot(key: Option<nat>) returns (r: Result<(seq<Connection>, bool), SecretError>)
      ensures r == LoadAll(key, file)
    {
      var read := file;
      var connections := new Connection[|read|](i requires 0 <= i < |read| => read[i]);
      assert connections[..] == read;
      var unlocked := LoadConnectionSecrets(connections, key);
      if unlocked.Err? {
        FailureIsTheLoads(key, read, unlocked.error);
        return Err(unlocked.error);
      }
      var changed := ApplySecretReferenceDefaultsToAll(connections);
      LoadInTwoPasses(key, read, connections[..], unlocked.value, changed);
      return Ok((connections[..], unlocked.value || changed));
    }

    /** Write the file back when the load found something to fix. */
    method PersistMigration(key: nat, nonces: nat -> string -> nat, writes: bool) returns (error: Option<SecretError>)
      modifies this
      ensures file == if writes then Migrated(key, nonces, old(file)) else old(file)
      ensures match LoadAll(Some(key), old(file))
              case Err(e) => error == Some(e)
              case Ok((_, needed)) => error == if needed && !writes then Some(WriteFailed) else None
    {
      var loaded := LoadSnapshot(Some(key));
      if loaded.Err? { return Some(loaded.error); }
      if loaded.value.1 {
        var persisted := StoreConnectionSecrets(loaded.value.0, key, nonces);
        if !writes { return Some(WriteFailed); }
        file := persisted;
      }
      return None;
    }
  }
}
