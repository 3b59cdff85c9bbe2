/**
 Locally stored cloud-connection secrets: loading decrypts them and fixes their references, and a load that found
 something to fix is followed by one write-back. Encryption is ideal: an envelope opens with its key and no other.
 */
module SecretMigration {
  import opened Wrappers
  import Text

  const LOCAL := "local_encrypted"

  /** A stored value is plain text or an envelope; what is inside an envelope may look like an envelope again. */
  datatype Secret = PlainText(text: string) | Envelope(key: nat, nonce: nat, inner: Secret)

  type Secrets = map<string, Secret>
  type Refs = map<string, string>

  datatype Connection = Connection(id: string, authMethod: string, secrets: Secrets, store: string, refs: Refs)

  datatype SecretError = KeyMissing | AuthenticationFailed | WriteFailed

  /** Loaded values, and whether some of them were still plain text. */
  datatype Loaded = Loaded(values: Secrets, needsMigration: bool)

  predicate BlankSecret(s: Secret) { s.PlainText? && Text.Blank(s.text) }

  predicate HasNonEmpty(secrets: Secrets) { exists n :: n in secrets && !BlankSecret(secrets[n]) }

  function SecretFields(authMethod: string): seq<string> {
    match authMethod
    case "aws_static" => ["secret_access_key", "session_token"]
    case "azure_service_principal" => ["client_secret"]
    case "gcp_service_account" => ["service_account_json"]
    case _ => []
  }

  /** Connections of other stores go through those stores; these are the ones kept in the file itself. */
  predicate Local(c: Connection) { Text.TrimSpace(c.store) == "" || Text.TrimSpace(c.store) == LOCAL }

  // ---- The encrypted store ----

  predicate Opens(key: Option<nat>, s: Secret) { s.Envelope? ==> key == Some(s.key) }

  function Opened(s: Secret): Secret { if s.Envelope? then s.inner else s }

  function LoadSecrets(key: Option<nat>, stored: Secrets): Result<Loaded, SecretError> {
    if exists n :: n in stored && !Opens(key, stored[n]) then
      Err(if key.None? then KeyMissing else AuthenticationFailed)
    else
      Ok(Loaded(map n | n in stored && !BlankSecret(stored[n]) :: Opened(stored[n]),
                exists n :: n in stored && !BlankSecret(stored[n]) && stored[n].PlainText?))
  }

  /** Every non-blank value is sealed under the key, each with its own nonce. */
  function SaveSecrets(key: nat, nonces: string -> nat, secrets: Secrets): Secrets {
    map n | n in secrets && !BlankSecret(secrets[n]) :: Envelope(key, nonces(n), secrets[n])
  }

  // ---- References ----

  function Ref(id: string, field: string): string { "local://connections/" + id + "/" + field }

  function LocalRefs(id: string, authMethod: string, secrets: Secrets): Refs {
    if Text.Blank(id) then map[]
    else map f | f in SecretFields(authMethod) && f in secrets && !BlankSecret(secrets[f]) :: Ref(id, f)
  }

  function MergeRefs(existing: Refs, submitted: Refs): Refs {
    map n | n in existing.Keys + submitted.Keys && (n in existing || !Text.Blank(submitted[n])) ::
      if n in submitted && !Text.Blank(submitted[n]) then Text.TrimSpace(submitted[n]) else existing[n]
  }

  function RefsMetadata(fields: seq<string>, refs: Refs): Refs {
    map f | f in fields && f in refs && !Text.Blank(refs[f]) :: Text.TrimSpace(refs[f])
  }

  function WithDefaults(c: Connection): (r: (Connection, bool)) {
    if c.store != "" && c.store != LOCAL then (c, false)
    else
      var refs := LocalRefs(c.id, c.authMethod, c.secrets);
      if refs == map[] then (c.(store := "", refs := map[]), c.store != "" || c.refs != map[])
      else (c.(store := LOCAL, refs := refs), c.store == "" || c.refs != refs)
  }

  // ---- One connection through a load and through a write-back ----

  function Unlocked(key: Option<nat>, c: Connection): Result<(Connection, bool), SecretError> {
    var trimmed := c.(store := Text.TrimSpace(c.store));
    if c.secrets == map[] then Ok((trimmed, false))
    else
      match LoadSecrets(key, c.secrets)
      case Err(e) => Err(e)
      case Ok(loaded) => Ok((trimmed.(secrets := loaded.values), loaded.needsMigration && HasNonEmpty(loaded.values)))
  }

  /** What a load returns for a connection, and whether the connection is to be written back. */
  function LoadOne(key: Option<nat>, c: Connection): Result<(Connection, bool), SecretError> {
    match Unlocked(key, c)
    case Err(e) => Err(e)
    case Ok((unlocked, migrate)) =>
      var (ready, changed) := WithDefaults(unlocked);
      Ok((ready, migrate || changed))
  }

  function StoreOne(key: nat, nonces: string -> nat, c: Connection): Connection {
    var trimmed := c.(store := Text.TrimSpace(c.store));
    if c.secrets == map[] then trimmed
    else
      var values := SaveSecrets(key, nonces, c.secrets);
      var refs := RefsMetadata(SecretFields(c.authMethod),
                               MergeRefs(c.refs, if values == map[] then map[]
                                                 else LocalRefs(c.id, c.authMethod, values)));
      trimmed.(secrets := values, refs := refs,
               store := if values != map[] || refs != map[] then LOCAL else trimmed.store)
  }

  // ---- The migration settles, or never does ----

  /** The condition a caller can read off a loaded connection. */
  predicate Settles(c: Connection) {
    || !HasNonEmpty(c.secrets)
    || (!Text.Blank(c.id)
        && exists f :: f in SecretFields(c.authMethod) && f in c.secrets && !BlankSecret(c.secrets[f]))
  }

  function NonBlank(secrets: Secrets): Secrets {
    map n | n in secrets && !BlankSecret(secrets[n]) :: secrets[n]
  }

  /** What a load leaves: references and store follow from the secrets. */
  predicate Ready(c: Connection) {
    var refs := LocalRefs(c.id, c.authMethod, c.secrets);
    c.refs == refs && c.store == if refs == map[] then "" else LOCAL
  }

  lemma LoadedIsReady(key: Option<nat>, c: Connection)
    requires Local(c)
    ensures LoadOne(key, c).Ok? ==> Ready(LoadOne(key, c).value.0)
  {
    UnlockedIsLocal(key, c);
    if Unlocked(key, c).Ok? { DefaultsAreReady(Unlocked(key, c).value.0); }
  }

  lemma UnlockedIsLocal(key: Option<nat>, c: Connection)
    ensures Unlocked(key, c).Ok? ==> Unlocked(key, c).value.0.store == Text.TrimSpace(c.store)
  {
  }

  lemma DefaultsAreReady(c: Connection)
    requires c.store == "" || c.store == LOCAL
    ensures Ready(WithDefaults(c).0)
  {
  }

  lemma SettlesExactlyWithRefs(c: Connection)
    ensures Settles(c) <==> !HasNonEmpty(c.secrets) || LocalRefs(c.id, c.authMethod, c.secrets) != map[]
  {
    var refs := LocalRefs(c.id, c.authMethod, c.secrets);
    if !Text.Blank(c.id) {
      if f :| f in SecretFields(c.authMethod) && f in c.secrets && !BlankSecret(c.secrets[f]) {
        assert f in refs;
      }
      if refs != map[] {
        var f :| f in refs;
      }
    }
  }

  lemma LocalRefsOfSaved(key: nat, nonces: string -> nat, id: string, authMethod: string, secrets: Secrets)
    ensures LocalRefs(id, authMethod, SaveSecrets(key, nonces, secrets)) == LocalRefs(id, authMethod, secrets)
    ensures LocalRefs(id, authMethod, NonBlank(secrets)) == LocalRefs(id, authMethod, secrets)
  {
  }

  lemma FieldsAreNonBlank(authMethod: string, f: string)
    requires f in SecretFields(authMethod)
    ensures f != "" && !Text.IsSpace(f[|f| - 1])
  {
  }

  /** A reference has no outer white space, whatever the id is. */
  lemma RefIsTrimmed(id: string, authMethod: string, f: string)
    requires f in SecretFields(authMethod)
    ensures Text.TrimSpace(Ref(id, f)) == Ref(id, f) && !Text.Blank(Ref(id, f))
  {
    FieldsAreNonBlank(authMethod, f);
    var r := Ref(id, f);
    assert r[0] == 'l' && r[|r| - 1] == f[|f| - 1];
    Text.TrimSpaceExact(r);
  }

  lemma TrimmedRefsSurvive(fields: seq<string>, refs: Refs)
    requires forall f :: f in refs ==> f in fields && Text.TrimSpace(refs[f]) == refs[f] && !Text.Blank(refs[f])
    ensures RefsMetadata(fields, MergeRefs(refs, refs)) == refs && RefsMetadata(fields, MergeRefs(refs, map[])) == refs
  {
    assert MergeRefs(refs, refs) == refs;
    assert MergeRefs(refs, map[]) == refs;
  }

  lemma LocalRefsSurvive(id: string, authMethod: string, secrets: Secrets)
    ensures var refs := LocalRefs(id, authMethod, secrets);
            && RefsMetadata(SecretFields(authMethod), MergeRefs(refs, refs)) == refs
            && RefsMetadata(SecretFields(authMethod), MergeRefs(refs, map[])) == refs
  {
    var refs := LocalRefs(id, authMethod, secrets);
    forall f | f in refs ensures Text.TrimSpace(refs[f]) == refs[f] && !Text.Blank(refs[f]) {
      RefIsTrimmed(id, authMethod, f);
    }
    TrimmedRefsSurvive(SecretFields(authMethod), refs);
  }

  lemma SavedLoadsBack(key: nat, nonces: string -> nat, secrets: Secrets)
    ensures LoadSecrets(Some(key), SaveSecrets(key, nonces, secrets)) == Ok(Loaded(NonBlank(secrets), false))
  {
    var saved := SaveSecrets(key, nonces, secrets);
    assert forall n :: n in saved ==> Opens(Some(key), saved[n]) && !BlankSecret(saved[n]);
    assert (map n | n in saved && !BlankSecret(saved[n]) :: Opened(saved[n])) == NonBlank(secrets);
  }

  lemma StoredShape(key: nat, nonces: string -> nat, c: Connection)
    requires Ready(c)
    ensures var stored := StoreOne(key, nonces, c);
            && stored.id == c.id && stored.authMethod == c.authMethod && stored.refs == c.refs
            && stored.secrets == SaveSecrets(key, nonces, c.secrets)
            && stored.store == if HasNonEmpty(c.secrets) || c.refs != map[] then LOCAL else ""
  {
    LocalRefsOfSaved(key, nonces, c.id, c.authMethod, c.secrets);
    LocalRefsSurvive(c.id, c.authMethod, c.secrets);
    StoreIsTrimmed();
    var saved := SaveSecrets(key, nonces, c.secrets);
    if n :| n in c.secrets && !BlankSecret(c.secrets[n]) { assert n in saved; }
    if saved == map[] { assert LocalRefs(c.id, c.authMethod, saved) == map[]; }
  }

  lemma StoreIsTrimmed()
    ensures Text.TrimSpace(LOCAL) == LOCAL && Text.TrimSpace("") == ""
  {
    assert Text.NoOuterSpace(LOCAL);
    Text.TrimSpaceExact(LOCAL);
    Text.TrimSpaceExact("");
  }

  /** Storing a loaded connection and loading it again: same non-blank secrets, same references, settled or not. */
  lemma ReloadOne(key: nat, nonces: string -> nat, c: Connection)
    requires Ready(c)
    ensures LoadOne(Some(key), StoreOne(key, nonces, c)) == Ok((c.(secrets := NonBlank(c.secrets)), !Settles(c)))
  {
    var stored := StoreOne(key, nonces, c);
    StoredShape(key, nonces, c);
    SavedLoadsBack(key, nonces, c.secrets);
    SettlesExactlyWithRefs(c);
    LocalRefsOfSaved(key, nonces, c.id, c.authMethod, c.secrets);
    StoreIsTrimmed();
    var saved := stored.secrets;
    if n :| n in c.secrets && !BlankSecret(c.secrets[n]) { assert n in saved; }
    if saved == map[] { assert NonBlank(c.secrets) == map[]; }
  }

  lemma NonBlankKeeps(c: Connection)
    requires Ready(c)
    ensures var d := c.(secrets := NonBlank(c.secrets));
            Ready(d) && Settles(d) == Settles(c) && NonBlank(d.secrets) == d.secrets
  {
    var d := c.(secrets := NonBlank(c.secrets));
    LocalRefsOfSaved(0, _ => 0, c.id, c.authMethod, c.secrets);
    SettlesExactlyWithRefs(c);
    SettlesExactlyWithRefs(d);
    if n :| n in c.secrets && !BlankSecret(c.secrets[n]) { assert n in d.secrets; }
  }

  // ---- The whole file ----

  type OneLoad = Result<(Connection, bool), SecretError>

  /** All of the loaded connections and whether any is to be written back, or the first failure. */
  function Gather(loads: seq<OneLoad>): Result<(seq<Connection>, bool), SecretError> {
    if loads == [] then Ok(([], false))
    else
      match Gather(loads[..|loads| - 1])
      case Err(e) => Err(e)
      case Ok((before, needed)) =>
        match loads[|loads| - 1]
        case Err(e) => Err(e)
        case Ok((c, needs)) => Ok((before + [c], needed || needs))
  }

  function Loads(key: Option<nat>, file: seq<Connection>): (r: seq<OneLoad>)
    ensures |r| == |file| && forall i :: 0 <= i < |file| ==> r[i] == LoadOne(key, file[i])
  {
    seq(|file|, i requires 0 <= i < |file| => LoadOne(key, file[i]))
  }

  /** A load of the file. */
  function LoadAll(key: Option<nat>, file: seq<Connection>): Result<(seq<Connection>, bool), SecretError> {
    Gather(Loads(key, file))
  }

  lemma {:induction false} GatherIs(loads: seq<OneLoad>)
    ensures Gather(loads).Ok? <==> forall i :: 0 <= i < |loads| ==> loads[i].Ok?
    ensures Gather(loads).Ok? ==>
              && |Gather(loads).value.0| == |loads|
              && (forall i :: 0 <= i < |loads| ==> Gather(loads).value.0[i] == loads[i].value.0)
              && (Gather(loads).value.1 <==> exists i :: 0 <= i < |loads| && loads[i].value.1)
  {
    if loads != [] {
      var before := loads[..|loads| - 1];
      GatherIs(before);
      assert forall i :: 0 <= i < |before| ==> before[i] == loads[i];
    }
  }

  function StoreAll(key: nat, nonces: nat -> string -> nat, cs: seq<Connection>): (r: seq<Connection>)
    ensures |r| == |cs| && forall i :: 0 <= i < |cs| ==> r[i] == StoreOne(key, nonces(i), cs[i])
  {
    seq(|cs|, i requires 0 <= i < |cs| => StoreOne(key, nonces(i), cs[i]))
  }

  predicate AllReady(cs: seq<Connection>) { forall i :: 0 <= i < |cs| ==> Ready(cs[i]) }

  predicate AllSettle(cs: seq<Connection>) { forall i :: 0 <= i < |cs| ==> Settles(cs[i]) }

  function AllNonBlank(cs: seq<Connection>): (r: seq<Connection>)
    ensures |r| == |cs| && forall i :: 0 <= i < |cs| ==> r[i] == cs[i].(secrets := NonBlank(cs[i].secrets))
  {
    seq(|cs|, i requires 0 <= i < |cs| => cs[i].(secrets := NonBlank(cs[i].secrets)))
  }

  lemma LoadedAreReady(key: Option<nat>, file: seq<Connection>)
    requires forall i :: 0 <= i < |file| ==> Local(file[i])
    ensures LoadAll(key, file).Ok? ==> AllReady(LoadAll(key, file).value.0) && |LoadAll(key, file).value.0| == |file|
  {
    var loads := Loads(key, file);
    GatherIs(loads);
    if LoadAll(key, file).Ok? {
      forall i | 0 <= i < |file| ensures Ready(loads[i].value.0) {
        LoadedIsReady(key, file[i]);
      }
    }
  }

  lemma GatherReloaded(loads: seq<OneLoad>, cs: seq<Connection>)
    requires |loads| == |cs|
    requires forall i :: 0 <= i < |cs| ==> loads[i] == Ok((cs[i].(secrets := NonBlank(cs[i].secrets)), !Settles(cs[i])))
    ensures Gather(loads) == Ok((AllNonBlank(cs), !AllSettle(cs)))
  {
    GatherIs(loads);
    assert Gather(loads).value.0 == AllNonBlank(cs);
  }

  lemma ReloadAll(key: nat, nonces: nat -> string -> nat, cs: seq<Connection>)
    requires AllReady(cs)
    ensures LoadAll(Some(key), StoreAll(key, nonces, cs)) == Ok((AllNonBlank(cs), !AllSettle(cs)))
  {
    var stored := StoreAll(key, nonces, cs);
    forall i | 0 <= i < |cs|
      ensures LoadOne(Some(key), stored[i]) == Ok((cs[i].(secrets := NonBlank(cs[i].secrets)), !Settles(cs[i])))
    {
      ReloadOne(key, nonces(i), cs[i]);
    }
    GatherReloaded(Loads(Some(key), stored), cs);
  }

  /** The file after a load: written back if the load asked for it. */
  function Migrated(key: nat, nonces: nat -> string -> nat, file: seq<Connection>): seq<Connection> {
    match LoadAll(Some(key), file)
    case Ok((cs, true)) => StoreAll(key, nonces, cs)
    case _ => file
  }

  /** The file before and after each of a number of loads, with fresh nonces for each. */
  predicate FileHistory(key: nat, nonces: nat -> nat -> string -> nat, files: seq<seq<Connection>>) {
    files != [] && forall i :: 0 < i < |files| ==> files[i] == Migrated(key, nonces(i), files[i - 1])
  }

  lemma OneMigration(key: nat, nonces: nat -> string -> nat, file: seq<Connection>, cs: seq<Connection>, needed: bool)
    requires AllReady(cs) && LoadAll(Some(key), file) == Ok((cs, needed))
    ensures LoadAll(Some(key), Migrated(key, nonces, file)) ==
            if needed then Ok((AllNonBlank(cs), !AllSettle(cs))) else Ok((cs, false))
  {
    ReloadAll(key, nonces, cs);
  }

  lemma KeptAreReady(cs: seq<Connection>)
    requires AllReady(cs)
    ensures var kept := AllNonBlank(cs);
            AllReady(kept) && AllNonBlank(kept) == kept && (AllSettle(kept) <==> AllSettle(cs))
  {
    var kept := AllNonBlank(cs);
    forall i | 0 <= i < |cs|
      ensures Ready(kept[i]) && Settles(kept[i]) == Settles(cs[i]) && NonBlank(kept[i].secrets) == kept[i].secrets
    {
      NonBlankKeeps(cs[i]);
    }
  }

  /** The file loads as these connections, which another write-back and load would leave as they are. */
  predicate Steady(key: nat, file: seq<Connection>, cs: seq<Connection>) {
    AllReady(cs) && AllNonBlank(cs) == cs && LoadAll(Some(key), file) == Ok((cs, !AllSettle(cs)))
  }

  lemma FirstStep(key: nat, nonces: nat -> string -> nat, file: seq<Connection>, cs: seq<Connection>)
    requires AllReady(cs) && LoadAll(Some(key), file) == Ok((cs, true))
    ensures Steady(key, Migrated(key, nonces, file), AllNonBlank(cs)) && AllSettle(AllNonBlank(cs)) == AllSettle(cs)
  {
    KeptAreReady(cs);
    OneMigration(key, nonces, file, cs, true);
  }

  lemma SteadyStep(key: nat, nonces: nat -> string -> nat, file: seq<Connection>, cs: seq<Connection>)
    requires Steady(key, file, cs)
    ensures Steady(key, Migrated(key, nonces, file), cs)
  {
    OneMigration(key, nonces, file, cs, !AllSettle(cs));
  }

  lemma {:induction false} LaterLoads(key: nat, nonces: nat -> nat -> string -> nat, files: seq<seq<Connection>>,
                                      cs: seq<Connection>, n: nat)
    requires FileHistory(key, nonces, files) && 1 <= n < |files|
    requires AllReady(cs) && LoadAll(Some(key), files[0]) == Ok((cs, true))
    ensures Steady(key, files[n], AllNonBlank(cs)) && AllSettle(AllNonBlank(cs)) == AllSettle(cs)
  {
    FirstStep(key, nonces(1), files[0], cs);
    if n > 1 {
      LaterLoads(key, nonces, files, cs, n - 1);
      SteadyStep(key, nonces(n), files[n - 1], AllNonBlank(cs));
    }
  }

  /**
   One step to the fixpoint, or none at all. After a load that wrote the file back, every later load returns the same
   non-blank secrets and references; and every later load, however many there are, again reports a migration exactly
   when some connection holds secrets without a reference: a blank id, or no secret that its method names.
   */
  lemma MigrationSettlesAtOnceOrNever(key: nat, nonces: nat -> nat -> string -> nat, files: seq<seq<Connection>>,
                                      n: nat)
    requires FileHistory(key, nonces, files) && 1 <= n < |files|
    requires forall i :: 0 <= i < |files[0]| ==> Local(files[0][i])
    requires LoadAll(Some(key), files[0]).Ok? && LoadAll(Some(key), files[0]).value.1
    ensures var cs := LoadAll(Some(key), files[0]).value.0;
            LoadAll(Some(key), files[n]) == Ok((AllNonBlank(cs), !AllSettle(cs)))
  {
    LoadedAreReady(Some(key), files[0]);
    LaterLoads(key, nonces, files, LoadAll(Some(key), files[0]).value.0, n);
  }

  /** Non-empty ids and secret names that all belong to the method are enough. */
  lemma NamedSecretsSettle(c: Connection)
    requires !Text.Blank(c.id)
    requires forall n :: n in c.secrets && !BlankSecret(c.secrets[n]) ==> n in SecretFields(c.authMethod)
    ensures Settles(c)
  {
  }

  /** A profile connection that carries a secret its method does not name. */
  const STRAY := Connection("c1", "aws_profile", map["token" := PlainText("t")], "", map[])

  lemma StraySecretLoads(key: nat)
    ensures var loaded := LoadSecrets(Some(key), STRAY.secrets);
            loaded.Ok? && loaded.value.needsMigration && HasNonEmpty(loaded.value.values)
  {
    assert Text.NoOuterSpace("t");
    Text.TrimSpaceExact("t");
    assert !BlankSecret(STRAY.secrets["token"]);
    assert "token" in LoadSecrets(Some(key), STRAY.secrets).value.values;
  }

  lemma StrayHasNoRefs(secrets: Secrets)
    ensures LocalRefs(STRAY.id, STRAY.authMethod, secrets) == map[]
  {
    assert SecretFields(STRAY.authMethod) == [];
  }

  lemma StrayLoads(key: nat)
    ensures LoadOne(Some(key), STRAY).Ok? && LoadOne(Some(key), STRAY).value.1
    ensures !Settles(LoadOne(Some(key), STRAY).value.0)
  {
    StraySecretLoads(key);
    StoreIsTrimmed();
    var loaded := LoadSecrets(Some(key), STRAY.secrets).value.values;
    StrayHasNoRefs(loaded);
    assert LoadOne(Some(key), STRAY).value.0 == STRAY.(secrets := loaded);
    SettlesExactlyWithRefs(STRAY.(secrets := loaded));
  }

  lemma LoadSingle(key: Option<nat>, c: Connection)
    requires LoadOne(key, c).Ok?
    ensures LoadAll(key, [c]) == Ok(([LoadOne(key, c).value.0], LoadOne(key, c).value.1))
  {
    var loads := Loads(key, [c]);
    GatherIs(loads);
    assert loads[0] == LoadOne(key, c);
    assert LoadAll(key, [c]).value.0 == [LoadOne(key, c).value.0];
  }

  /** Such a connection is written back at every single load. */
  lemma StraySecretNeverSettles(key: nat, nonces: nat -> nat -> string -> nat, files: seq<seq<Connection>>, n: nat)
    requires FileHistory(key, nonces, files) && n < |files|
    requires files[0] == [STRAY]
    ensures LoadAll(Some(key), files[n]).Ok? && LoadAll(Some(key), files[n]).value.1
  {
    StrayLoads(key);
    LoadSingle(Some(key), STRAY);
    if n > 0 {
      StoreIsTrimmed();
      MigrationSettlesAtOnceOrNever(key, nonces, files, n);
      assert !Settles(LoadAll(Some(key), files[0]).value.0[0]);
    }
  }
}
