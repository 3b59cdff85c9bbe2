/** What a load of one stored connection answers, and that its references tell all connections and fields apart. */
module SecretLoads {
  import opened Wrappers
  import opened SecretMigration
  import Text

  /** Somewhere in the connection is an envelope that this key does not open. */
  predicate Locked(key: Option<nat>, c: Connection) {
    exists n :: n in c.secrets && c.secrets[n].Envelope? && key != Some(c.secrets[n].key)
  }

  predicate StillPlain(c: Connection) {
    exists n :: n in c.secrets && c.secrets[n].PlainText? && !Text.Blank(c.secrets[n].text)
  }

  /** A connection loads exactly when the key opens every envelope in it, and the error says what is missing. */
  lemma LoadsExactlyWhenOpen(key: Option<nat>, c: Connection)
    ensures LoadOne(key, c).Ok? <==> !Locked(key, c)
    ensures LoadOne(key, c) == Err(KeyMissing) <==> Locked(key, c) && key.None?
    ensures LoadOne(key, c) == Err(AuthenticationFailed) <==> Locked(key, c) && key.Some?
  {
    if Locked(key, c) {
      var n :| n in c.secrets && c.secrets[n].Envelope? && key != Some(c.secrets[n].key);
      assert !Opens(key, c.secrets[n]);
    }
  }

  /** The loaded values: what was not blank, out of its envelope if it was in one. */
  ghost predicate Unsealed(stored: Secrets, values: Secrets) {
    && (forall n :: n in values <==> n in stored && !(stored[n].PlainText? && Text.Blank(stored[n].text)))
    && (forall n :: n in values ==> values[n] == if stored[n].Envelope? then stored[n].inner else stored[n])
  }

  /** The references of a loaded connection: one for every secret that its method names, if it has an id at all. */
  ghost predicate Referenced(c: Connection) {
    && (forall f :: f in c.refs <==>
          && !Text.Blank(c.id) && f in SecretFields(c.authMethod)
          && f in c.secrets && !(c.secrets[f].PlainText? && Text.Blank(c.secrets[f].text)))
    && (forall f :: f in c.refs ==> c.refs[f] == "local://connections/" + c.id + "/" + f)
    && c.store == if c.refs == map[] then "" else "local_encrypted"
  }

  lemma UnlockedIs(key: Option<nat>, c: Connection)
    requires Unlocked(key, c).Ok?
    ensures var (unlocked, migrate) := Unlocked(key, c).value;
            && unlocked == c.(store := Text.TrimSpace(c.store), secrets := unlocked.secrets)
            && Unsealed(c.secrets, unlocked.secrets)
            && (migrate <==> StillPlain(c))
  {
    if StillPlain(c) {
      var n :| n in c.secrets && c.secrets[n].PlainText? && !Text.Blank(c.secrets[n].text);
      assert !BlankSecret(c.secrets[n]);
      assert n in Unlocked(key, c).value.0.secrets;
    }
  }

  lemma DefaultsAre(c: Connection)
    requires c.store == "" || c.store == "local_encrypted"
    ensures var (ready, changed) := WithDefaults(c);
            && ready == c.(store := ready.store, refs := ready.refs) && Referenced(ready)
            && (changed <==> ready.refs != c.refs || ready.store != c.store)
  {
  }

  /**
   What a load returns: the same connection with its secrets unsealed and its references and store as its secrets
   call for; and it asks for a write-back exactly if a secret was still plain text or a reference or the store differs.
   */
  lemma LoadReturns(key: Option<nat>, c: Connection)
    requires Local(c) && LoadOne(key, c).Ok?
    ensures var (loaded, needsMigration) := LoadOne(key, c).value;
            && loaded.id == c.id && loaded.authMethod == c.authMethod
            && Unsealed(c.secrets, loaded.secrets) && Referenced(loaded)
            && (needsMigration <==>
                  StillPlain(c) || loaded.refs != c.refs || loaded.store != Text.TrimSpace(c.store))
  {
    UnlockedIs(key, c);
    DefaultsAre(Unlocked(key, c).value.0);
  }

  predicate NonBlankAt(texts: Refs, f: string) { f in texts && !Text.Blank(texts[f]) }

  predicate HoldsAt(secrets: Secrets, f: string) {
    f in secrets && !(secrets[f].PlainText? && Text.Blank(secrets[f].text))
  }

  /**
   What a write-back stores of any connection with secrets: each secret that is not blank in an envelope of its own;
   for each field of the method the reference of its secret, or else the trimmed one it had; and the store's name if
   either is left.
   */
  lemma StoreWrites(key: nat, nonces: string -> nat, c: Connection)
    requires c.secrets != map[]
    ensures var stored := StoreOne(key, nonces, c);
            && stored.id == c.id && stored.authMethod == c.authMethod
            && (forall n :: n in stored.secrets <==> HoldsAt(c.secrets, n))
            && (forall n :: n in stored.secrets ==> stored.secrets[n] == Envelope(key, nonces(n), c.secrets[n]))
            && (forall f :: f in stored.refs <==>
                  f in SecretFields(c.authMethod) && (ReferredAt(c, f) || NonBlankAt(c.refs, f)))
            && (forall f :: f in stored.refs ==>
                  stored.refs[f] == if ReferredAt(c, f) then "local://connections/" + c.id + "/" + f
                                    else Text.TrimSpace(c.refs[f]))
            && stored.store == if stored.secrets == map[] && stored.refs == map[] then Text.TrimSpace(c.store)
                               else "local_encrypted"
  {
    LocalRefsOfSaved(key, nonces, c.id, c.authMethod, c.secrets);
    forall f | f in SecretFields(c.authMethod) ensures Text.TrimSpace(Ref(c.id, f)) == Ref(c.id, f) != "" {
      RefIsTrimmed(c.id, c.authMethod, f);
    }
  }

  /** The field holds a secret of a connection that references can be made for. */
  predicate ReferredAt(c: Connection, f: string) { !Text.Blank(c.id) && HoldsAt(c.secrets, f) }

  lemma FieldsHaveNoSlash(authMethod: string, f: string)
    requires f in SecretFields(authMethod)
    ensures '/' !in f
  {
  }

  lemma NoLaterSlash(a: string, f: string)
    requires '/' !in f
    ensures forall j :: |a| < j < |a + "/" + f| ==> (a + "/" + f)[j] != '/'
  {
    assert forall j :: |a| < j < |a + "/" + f| ==> (a + "/" + f)[j] == f[j - |a| - 1];
  }

  lemma SplitAtLastSlash(a: string, f: string, b: string, g: string)
    requires '/' !in f && '/' !in g && a + "/" + f == b + "/" + g
    ensures a == b && f == g
  {
    var r := a + "/" + f;
    NoLaterSlash(a, f);
    NoLaterSlash(b, g);
    assert r[|a|] == '/' && r[|b|] == '/';
    assert a == r[..|a|] && b == r[..|b|];
    assert f == r[|a| + 1..] && g == r[|b| + 1..];
  }

  /** No two connections share a reference, and no two fields of one connection do. */
  lemma ReferencesTellApart(c: Connection, d: Connection, f: string, g: string)
    requires Referenced(c) && Referenced(d) && f in c.refs && g in d.refs && c.refs[f] == d.refs[g]
    ensures c.id == d.id && f == g
  {
    FieldsHaveNoSlash(c.authMethod, f);
    FieldsHaveNoSlash(d.authMethod, g);
    var prefix := "local://connections/";
    SplitAtLastSlash(prefix + c.id, f, prefix + d.id, g);
    assert c.id == (prefix + c.id)[|prefix|..] && d.id == (prefix + d.id)[|prefix|..];
  }
}
