/** The policy file: a sorted snapshot of validated, scoped policies that loads back to the very same map. */
module PolicyFile {
  import opened Wrappers
  import opened Routing
  import Text

  const VERSION := 1

  datatype Scope = Scope(project: string, providerId: string)

  datatype Scoped = Scoped(scope: Scope, policy: Policy)

  type Policies = map<Scope, Policy>

  /** A missing file is an empty store; a file that does not decode strictly fails the load. */
  datatype File = Missing | Undecodable | Stored(version: int, entries: seq<Scoped>)

  datatype StoreError = InvalidScope | InvalidPolicyInScope | ScopeMismatch | InvalidStore | NotFound | WriteFailed

  predicate ScopeValid(s: Scope) { Text.Required(s.project) && Text.Required(s.providerId) }

  predicate RulesInScope(s: Scope, p: Policy) {
    forall r :: r in p.rules ==> r.project == s.project && r.providerId == s.providerId
  }

  predicate EntryValid(e: Scoped) { ScopeValid(e.scope) && PolicyValid(e.policy) && RulesInScope(e.scope, e.policy) }

  ghost predicate AllValid(m: Policies) { forall s :: s in m ==> EntryValid(Scoped(s, m[s])) }

  /** A policy that may be stored under a scope never admits a request from outside it. */
  lemma StoredPolicyKeepsToItsScope(e: Scoped, answer: Option<Entry>, q: Request)
    requires EntryValid(e) && Authorize(Some(e.policy), answer, q).status != Denied
    ensures q.project == e.scope.project && q.providerId == e.scope.providerId
    ensures e.scope.project != "" && Text.TrimSpace(e.scope.project) == e.scope.project
    ensures e.scope.providerId != "" && Text.TrimSpace(e.scope.providerId) == e.scope.providerId
  {
    FirstMatchIsFirst(e.policy.rules, q);
    if FirstMatch(e.policy.rules, q).Some? {
      var i :| Decides(e.policy.rules, q, i);
      assert e.policy.rules[i] in e.policy.rules;
    }
  }

  // ---- The order of the snapshot ----

  predicate ScopeLess(a: Scope, b: Scope) {
    if a.project == b.project then Text.Less(a.providerId, b.providerId) else Text.Less(a.project, b.project)
  }

  lemma ScopeLessIsStrictTotal(a: Scope, b: Scope)
    ensures !ScopeLess(a, a)
    ensures !(ScopeLess(a, b) && ScopeLess(b, a))
    ensures a == b || ScopeLess(a, b) || ScopeLess(b, a)
  {
    Text.LessIsStrictTotal(a.project, b.project);
    Text.LessIsStrictTotal(a.providerId, b.providerId);
  }

  lemma ScopeLessIsTransitive(a: Scope, b: Scope, c: Scope)
    requires ScopeLess(a, b) && ScopeLess(b, c)
    ensures ScopeLess(a, c)
  {
    if a.project == b.project == c.project {
      Text.LessIsTransitive(a.providerId, b.providerId, c.providerId);
    } else if a.project != b.project && b.project != c.project {
      Text.LessIsTransitive(a.project, b.project, c.project);
      Text.LessIsStrictTotal(a.project, b.project);
    }
  }

  ghost predicate Increasing(s: seq<Scoped>) {
    forall i, j :: 0 <= i < j < |s| ==> ScopeLess(s[i].scope, s[j].scope)
  }

  ghost predicate HasScope(s: seq<Scoped>, k: Scope) { exists i :: 0 <= i < |s| && s[i].scope == k }

  ghost predicate ScopesDistinct(entries: seq<Scoped>) {
    forall i, j :: 0 <= i < j < |entries| ==> entries[i].scope != entries[j].scope
  }

  /** The entries of the map, each once. */
  ghost predicate Lists(s: seq<Scoped>, m: Policies) {
    && (forall i :: 0 <= i < |s| ==> s[i].scope in m && m[s[i].scope] == s[i].policy)
    && (forall k :: k in m ==> HasScope(s, k))
    && ScopesDistinct(s)
  }

  ghost predicate IsSnapshot(s: seq<Scoped>, m: Policies) {
    Increasing(s) && Lists(s, m)
  }

  lemma TailIsSnapshot(s: seq<Scoped>, m: Policies)
    requires IsSnapshot(s, m) && s != []
    ensures IsSnapshot(s[1..], m - {s[0].scope})
    ensures s[0].scope in m && forall k :: k in m && k != s[0].scope ==> ScopeLess(s[0].scope, k)
  {
    var rest, less := s[1..], m - {s[0].scope};
    assert forall i :: 0 <= i < |rest| ==> rest[i] == s[i + 1];
    forall k | k in less ensures exists i :: 0 <= i < |rest| && rest[i].scope == k {
      var i :| 0 <= i < |s| && s[i].scope == k;
      assert rest[i - 1].scope == k;
    }
    forall k | k in m && k != s[0].scope ensures ScopeLess(s[0].scope, k) {
      var i :| 0 <= i < |s| && s[i].scope == k;
    }
  }

  lemma SameFirst(s: seq<Scoped>, t: seq<Scoped>, m: Policies)
    requires IsSnapshot(s, m) && IsSnapshot(t, m) && s != [] && t != []
    ensures s[0] == t[0]
  {
    TailIsSnapshot(s, m);
    TailIsSnapshot(t, m);
    ScopeLessIsStrictTotal(s[0].scope, t[0].scope);
  }

  lemma EmptySnapshot(s: seq<Scoped>, m: Policies)
    requires IsSnapshot(s, m)
    ensures s == [] <==> m == map[]
  {
    if s != [] { assert s[0].scope in m; }
    if k :| k in m {
      var i :| 0 <= i < |s| && s[i].scope == k;
    }
  }

  /** The snapshot is canonical: one map has one snapshot, so the written file does not depend on iteration order. */
  lemma {:induction false} SnapshotIsCanonical(s: seq<Scoped>, t: seq<Scoped>, m: Policies)
    requires IsSnapshot(s, m) && IsSnapshot(t, m)
    ensures s == t
    decreases |s|
  {
    EmptySnapshot(s, m);
    EmptySnapshot(t, m);
    if s != [] {
      SameFirst(s, t, m);
      TailIsSnapshot(s, m);
      TailIsSnapshot(t, m);
      SnapshotIsCanonical(s[1..], t[1..], m - {s[0].scope});
      assert s == [s[0]] + s[1..] && t == [t[0]] + t[1..];
    }
  }

  // ---- Loading ----

  function LoadEntries(entries: seq<Scoped>): Result<Policies, StoreError> {
    if entries == [] then Ok(map[])
    else
      var last := entries[|entries| - 1];
      match LoadEntries(entries[..|entries| - 1])
      case Err(e) => Err(e)
      case Ok(before) =>
        if !EntryValid(last) || last.scope in before then Err(InvalidStore)
        else Ok(before[last.scope := last.policy])
  }

  function LoadStore(file: File): Result<Policies, StoreError> {
    match file
    case Missing => Ok(map[])
    case Undecodable => Err(InvalidStore)
    case Stored(version, entries) => if version != VERSION then Err(InvalidStore) else LoadEntries(entries)
  }

  lemma ListsSnoc(before: seq<Scoped>, m: Policies, last: Scoped)
    requires Lists(before, m)
    ensures last.scope in m <==> exists i :: 0 <= i < |before| && before[i].scope == last.scope
    ensures last.scope !in m ==> Lists(before + [last], m[last.scope := last.policy])
  {
    var entries, grown := before + [last], m[last.scope := last.policy];
    forall k | k in grown ensures exists i :: 0 <= i < |entries| && entries[i].scope == k {
      if k == last.scope {
        assert entries[|before|].scope == k;
      } else {
        var i :| 0 <= i < |before| && before[i].scope == k;
        assert entries[i].scope == k;
      }
    }
  }

  lemma ValidSnoc(m: Policies, last: Scoped)
    requires AllValid(m) && EntryValid(last)
    ensures AllValid(m[last.scope := last.policy])
  {
    assert Scoped(last.scope, last.policy) == last;
  }

  predicate AllEntriesValid(entries: seq<Scoped>) {
    forall i :: 0 <= i < |entries| ==> EntryValid(entries[i])
  }

  lemma SnocFacts(before: seq<Scoped>, last: Scoped)
    ensures AllEntriesValid(before + [last]) <==> AllEntriesValid(before) && EntryValid(last)
    ensures ScopesDistinct(before + [last]) <==>
              ScopesDistinct(before) && !exists i :: 0 <= i < |before| && before[i].scope == last.scope
  {
    var entries := before + [last];
    assert entries[|before|] == last;
    assert forall i :: 0 <= i < |before| ==> entries[i] == before[i];
  }

  /** A list of entries loads exactly if each is valid and no scope repeats; then it loads as what it lists. */
  lemma {:induction false} LoadedIsValid(entries: seq<Scoped>)
    ensures LoadEntries(entries).Ok? ==>
              AllValid(LoadEntries(entries).value) && Lists(entries, LoadEntries(entries).value)
    ensures LoadEntries(entries).Ok? <==> AllEntriesValid(entries) && ScopesDistinct(entries)
  {
    if entries != [] {
      var before, last := entries[..|entries| - 1], entries[|entries| - 1];
      LoadedIsValid(before);
      assert entries == before + [last];
      SnocFacts(before, last);
      if LoadEntries(before).Ok? {
        ListsSnoc(before, LoadEntries(before).value, last);
        if EntryValid(last) { ValidSnoc(LoadEntries(before).value, last); }
      }
    }
  }

  lemma ListsSame(s: seq<Scoped>, m: Policies, n: Policies)
    requires Lists(s, m) && Lists(s, n)
    ensures m == n
  {
    forall k ensures k in m <==> k in n {
      if k in m {
        var i :| 0 <= i < |s| && s[i].scope == k;
      }
      if k in n {
        var i :| 0 <= i < |s| && s[i].scope == k;
      }
    }
  }

  /** Round trip: a persisted store of valid policies loads back to the same map. */
  lemma PersistedLoadsBack(s: seq<Scoped>, m: Policies)
    requires Lists(s, m) && AllValid(m)
    ensures LoadStore(Stored(VERSION, s)) == Ok(m)
  {
    forall i | 0 <= i < |s| ensures EntryValid(s[i]) {
      assert s[i] == Scoped(s[i].scope, m[s[i].scope]);
    }
    assert AllEntriesValid(s) && ScopesDistinct(s);
    LoadedIsValid(s);
    ListsSame(s, LoadEntries(s).value, m);
  }

  /** A file loads exactly if it is missing or strictly decodes as version 1 with valid entries, no scope twice. */
  lemma FileLoadsExactlyWhen(file: File)
    ensures LoadStore(file).Ok? <==>
              || file.Missing?
              || (file.Stored? && file.version == 1 && AllEntriesValid(file.entries) && ScopesDistinct(file.entries))
    ensures LoadStore(file).Ok? || LoadStore(file) == Err(InvalidStore)
    ensures file.Missing? ==> LoadStore(file) == Ok(map[])
  {
    if file.Stored? {
      LoadedIsValid(file.entries);
      OnlyInvalid(file.entries);
    }
  }

  lemma {:induction false} OnlyInvalid(entries: seq<Scoped>)
    ensures LoadEntries(entries).Ok? || LoadEntries(entries) == Err(InvalidStore)
  {
    if entries != [] { OnlyInvalid(entries[..|entries| - 1]); }
  }

  // ---- The loops of the program ----

  method Load(file: File) returns (r: Result<Policies, StoreError>)
    ensures r == LoadStore(file)
  {
    match file {
      case Missing => return Ok(map[]);
      case Undecodable => return Err(InvalidStore);
      case Stored(version, entries) =>
        if version != VERSION { return Err(InvalidStore); }
        var policies: Policies := map[];
        var i := 0;
        while i < |entries|
          invariant 0 <= i <= |entries|
          invariant LoadEntries(entries[..i]) == Ok(policies)
        {
          assert entries[..i + 1][..i] == entries[..i];
          if !EntryValid(entries[i]) || entries[i].scope in policies {
            LoadFailsFrom(entries, i + 1);
            return Err(InvalidStore);
          }
          policies := policies[entries[i].scope := entries[i].policy];
          i := i + 1;
        }
        assert entries[..i] == entries;
        return Ok(policies);
    }
  }

  lemma {:induction false} LoadFailsFrom(entries: seq<Scoped>, i: nat)
    requires i <= |entries| && LoadEntries(entries[..i]) == Err(InvalidStore)
    ensures LoadEntries(entries) == Err(InvalidStore)
    decreases |entries| - i
  {
    if i < |entries| {
      assert entries[..i + 1][..i] == entries[..i];
      LoadFailsFrom(entries, i + 1);
    } else {
      assert entries[..i] == entries;
    }
  }

  /** Insert into a sorted list, as the library sort would place it. */
  method Insert(sorted: seq<Scoped>, e: Scoped, ghost m: Policies) returns (r: seq<Scoped>)
    requires IsSnapshot(sorted, m) && e.scope !in m
    ensures IsSnapshot(r, m[e.scope := e.policy])
  {
    var i := 0;
    while i < |sorted| && ScopeLess(sorted[i].scope, e.scope)
      invariant 0 <= i <= |sorted|
      invariant forall j :: 0 <= j < i ==> ScopeLess(sorted[j].scope, e.scope)
    {
      i := i + 1;
    }
    r := sorted[..i] + [e] + sorted[i..];
    InsertedIsSnapshot(sorted, e, m, i);
  }

  lemma InsertedIsIncreasing(sorted: seq<Scoped>, e: Scoped, i: nat)
    requires Increasing(sorted) && i <= |sorted| && forall j :: 0 <= j < |sorted| ==> sorted[j].scope != e.scope
    requires forall j :: 0 <= j < i ==> ScopeLess(sorted[j].scope, e.scope)
    requires i < |sorted| ==> !ScopeLess(sorted[i].scope, e.scope)
    ensures Increasing(sorted[..i] + [e] + sorted[i..])
  {
    var r := sorted[..i] + [e] + sorted[i..];
    forall j | i <= j < |sorted| ensures ScopeLess(e.scope, sorted[j].scope) {
      ScopeLessIsStrictTotal(sorted[i].scope, e.scope);
      if j > i { ScopeLessIsTransitive(e.scope, sorted[i].scope, sorted[j].scope); }
    }
    assert forall j :: 0 <= j < |r| ==> r[j] == if j < i then sorted[j] else if j == i then e else sorted[j - 1];
  }

  lemma InsertedAt(sorted: seq<Scoped>, e: Scoped, i: nat)
    requires i <= |sorted|
    ensures var r := sorted[..i] + [e] + sorted[i..];
            && |r| == |sorted| + 1
            && forall j :: 0 <= j < |r| ==> r[j] == if j < i then sorted[j] else if j == i then e else sorted[j - 1]
  {
  }

  lemma InsertedDistinct(sorted: seq<Scoped>, e: Scoped, i: nat)
    requires ScopesDistinct(sorted) && i <= |sorted| && forall j :: 0 <= j < |sorted| ==> sorted[j].scope != e.scope
    ensures ScopesDistinct(sorted[..i] + [e] + sorted[i..])
  {
    var r := sorted[..i] + [e] + sorted[i..];
    InsertedAt(sorted, e, i);
    forall a, b | 0 <= a < b < |r| ensures r[a].scope != r[b].scope {
      if a != i && b != i {
        assert sorted[if a < i then a else a - 1].scope != sorted[if b < i then b else b - 1].scope;
      }
    }
  }

  lemma InsertedLists(sorted: seq<Scoped>, e: Scoped, m: Policies, i: nat)
    requires Lists(sorted, m) && e.scope !in m && i <= |sorted|
    ensures Lists(sorted[..i] + [e] + sorted[i..], m[e.scope := e.policy])
  {
    InsertedDistinct(sorted, e, i);
    InsertedIsListed(sorted, e, m, i);
    forall k | k in m[e.scope := e.policy] ensures HasScope(sorted[..i] + [e] + sorted[i..], k) {
      InsertedHas(sorted, e, i, k);
    }
  }

  lemma InsertedIsListed(sorted: seq<Scoped>, e: Scoped, m: Policies, i: nat)
    requires Lists(sorted, m) && i <= |sorted| && e.scope !in m
    ensures var r, grown := sorted[..i] + [e] + sorted[i..], m[e.scope := e.policy];
            forall j :: 0 <= j < |r| ==> r[j].scope in grown && grown[r[j].scope] == r[j].policy
  {
    InsertedAt(sorted, e, i);
  }

  lemma InsertedHas(sorted: seq<Scoped>, e: Scoped, i: nat, k: Scope)
    requires i <= |sorted| && (k == e.scope || HasScope(sorted, k))
    ensures HasScope(sorted[..i] + [e] + sorted[i..], k)
  {
    var r := sorted[..i] + [e] + sorted[i..];
    if k == e.scope {
      assert r[i] == e;
    } else {
      var j :| 0 <= j < |sorted| && sorted[j].scope == k;
      if j < i { assert r[j] == sorted[j]; } else { assert r[j + 1] == sorted[j]; }
    }
  }

  lemma InsertedIsSnapshot(sorted: seq<Scoped>, e: Scoped, m: Policies, i: nat)
    requires IsSnapshot(sorted, m) && e.scope !in m && i <= |sorted|
    requires forall j :: 0 <= j < i ==> ScopeLess(sorted[j].scope, e.scope)
    requires i < |sorted| ==> !ScopeLess(sorted[i].scope, e.scope)
    ensures IsSnapshot(sorted[..i] + [e] + sorted[i..], m[e.scope := e.policy])
  {
    InsertedIsIncreasing(sorted, e, i);
    InsertedLists(sorted, e, m, i);
  }

  /** Build the snapshot by walking the map in whatever order the iteration takes. */
  method Snapshot(policies: Policies) returns (entries: seq<Scoped>)
    ensures IsSnapshot(entries, policies)
  {
    entries := [];
    var left := policies.Keys;
    ghost var done: Policies := map[];
    while left != {}
      invariant left <= policies.Keys && done.Keys == policies.Keys - left
      invariant forall k :: k in done ==> done[k] == policies[k]
      invariant IsSnapshot(entries, done)
      decreases |left|
    {
      var scope :| scope in left;
      entries := Insert(entries, Scoped(scope, policies[scope]), done);
      left := left - {scope};
      done := done[scope := policies[scope]];
    }
    assert done == policies;
  }
}
