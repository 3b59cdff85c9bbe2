/** The graph builder and the two-level walk, as loops over maps in any order. */
module BlastAnalyzer {
  import opened Blast
  import Text

  method HasDep(deps: seq<Dependency>, to: string, field: string) returns (found: bool)
    ensures found <==> exists i :: 0 <= i < |deps| && deps[i].target == to && deps[i].field == field
  {
    for i := 0 to |deps|
      invariant forall j :: 0 <= j < i ==> !(deps[j].target == to && deps[j].field == field)
    {
      if deps[i].target == to && deps[i].field == field { return true; }
    }
    return false;
  }

  lemma AppendedLists(edges: seq<Dependency>, dependencies: Adjacency, dependents: Adjacency, e: Dependency)
    requires Lists(edges, dependencies, dependents)
    ensures Lists(edges + [e], dependencies[e.source := Of(dependencies, e.source) + [e]],
                  dependents[e.target := Of(dependents, e.target) + [e]])
  {
    var more := dependencies[e.source := Of(dependencies, e.source) + [e]];
    var most := dependents[e.target := Of(dependents, e.target) + [e]];
    forall a ensures Of(more, a) == From(edges + [e], a) {
      Appended(edges, e, a);
      assert Of(dependencies, a) == From(edges, a);
    }
    forall a ensures Of(most, a) == To(edges + [e], a) {
      Appended(edges, e, a);
      assert Of(dependents, a) == To(edges, a);
    }
  }

  class Builder {
    var dependencies: Adjacency
    var dependents: Adjacency
    /** The edges in the order in which they were found. */
    ghost var edges: seq<Dependency>

    ghost predicate Valid()
      reads this
    {
      Lists(edges, dependencies, dependents)
    }

    constructor ()
      ensures Valid() && edges == []
    {
      dependencies, dependents, edges := map[], map[], [];
    }

    method Append(e: Dependency)
      requires Valid()
      modifies this
      ensures Valid() && edges == old(edges) + [e]
    {
      AppendedLists(edges, dependencies, dependents, e);
      dependencies := dependencies[e.source := Of(dependencies, e.source) + [e]];
      dependents := dependents[e.target := Of(dependents, e.target) + [e]];
      edges := edges + [e];
    }

    /** Explicit references: the value contains an address and a dot. */
    method ScanExplicit(index: map<string, Resource>, source: string, field: string, value: string)
      requires Valid()
      modifies this
      ensures Valid()
      ensures forall e :: e in edges <==>
                || e in old(edges)
                || (e.source == source && e.field == field && e.target in index && e.target != source
                    && Explicit(value, e.target))
    {
      var left := index.Keys;
      while left != {}
        invariant Valid() && left <= index.Keys
        invariant forall e :: e in edges <==>
                    || e in old(edges)
                    || (e.source == source && e.field == field && e.target in index && e.target !in left
                        && e.target != source && Explicit(value, e.target))
        decreases |left|
      {
        var to :| to in left;
        left := left - {to};
        if to != source && Text.Contains(value, to + ".") {
          Append(Dependency(source, to, field));
        }
      }
    }

    /** Inferred references: the field's name points at a kind of resource. */
    method ScanInferred(index: map<string, Resource>, source: string, field: string)
      requires Valid()
      modifies this
      ensures Valid()
      ensures forall e :: e in edges <==>
                || e in old(edges)
                || (e.source == source && e.field == field && e.target in index && e.target != source
                    && InferredKind(field) != "" && index[e.target].kind == InferredKind(field))
    {
      var kind := InferredKind(field);
      if kind == "" { return; }
      var left := index.Keys;
      while left != {}
        invariant Valid() && left <= index.Keys
        invariant forall e :: e in edges <==>
                    || e in old(edges)
                    || (e.source == source && e.field == field && e.target in index && e.target !in left
                        && e.target != source && index[e.target].kind == kind)
        decreases |left|
      {
        var to :| to in left;
        left := left - {to};
        if index[to].kind == kind && to != source {
          var deps := Of(dependencies, source);
          var known := HasDep(deps, to, field);
          if known {
            ghost var i :| 0 <= i < |deps| && deps[i].target == to && deps[i].field == field;
            MemberOfFrom(edges, source, deps[i]);
            assert deps[i] == Dependency(source, to, field) && deps[i] in edges;
          } else {
            Append(Dependency(source, to, field));
          }
        }
      }
    }

    method ScanResource(index: map<string, Resource>, r: Resource)
      requires Valid()
      modifies this
      ensures Valid() && forall e :: e in edges <==> e in old(edges) || ResourceGives(index, r, e)
    {
      var source := Address(r);
      var left := r.properties.Keys;
      while left != {}
        invariant Valid() && left <= r.properties.Keys
        invariant forall e :: e in edges <==> e in old(edges) || (e.field !in left && ResourceGives(index, r, e))
        decreases |left|
      {
        var field :| field in left;
        left := left - {field};
        ScanExplicit(index, source, field, r.properties[field]);
        ScanInferred(index, source, field);
      }
    }
  }

  lemma OneMoreGives(index: map<string, Resource>, resources: seq<Resource>, i: nat, e: Dependency)
    requires i < |resources|
    ensures ResourcesGive(index, resources[..i + 1], e) <==>
              ResourcesGive(index, resources[..i], e) || ResourceGives(index, resources[i], e)
  {
    GivesSnoc(index, resources[..i], resources[i], e);
    assert resources[..i + 1] == resources[..i] + [resources[i]];
  }

  lemma CountsOfLists(edges: seq<Dependency>, dependencies: Adjacency, dependents: Adjacency, e: Dependency)
    requires Lists(edges, dependencies, dependents)
    ensures Count(Of(dependencies, e.source), e) == Count(Of(dependents, e.target), e)
  {
    assert Of(dependencies, e.source) == From(edges, e.source) && Of(dependents, e.target) == To(edges, e.target);
    CountFrom(edges, e);
    CountTo(edges, e);
  }

  lemma MembersOfLists(edges: seq<Dependency>, dependencies: Adjacency, dependents: Adjacency, a: string, e: Dependency)
    requires Lists(edges, dependencies, dependents)
    ensures e in Of(dependencies, a) <==> e in edges && e.source == a
    ensures e in Of(dependents, a) <==> e in edges && e.target == a
  {
    assert Of(dependencies, a) == From(edges, a) && Of(dependents, a) == To(edges, a);
    MemberOfFrom(edges, a, e);
  }

  lemma ListsAreBuilt(edges: seq<Dependency>, g: Graph, resources: seq<Resource>)
    requires Lists(edges, g.dependencies, g.dependents)
    requires forall e :: e in edges <==> ResourcesGive(ByAddress(resources), resources, e)
    requires |g.resources| == |resources|
    requires forall i :: 0 <= i < |resources| ==> g.resources[i] == Address(resources[i])
    ensures Built(g, resources)
  {
    forall e: Dependency ensures Count(Of(g.dependencies, e.source), e) == Count(Of(g.dependents, e.target), e) {
      CountsOfLists(edges, g.dependencies, g.dependents, e);
    }
    forall a, e
      ensures e in Of(g.dependencies, a) <==> e.source == a && ResourcesGive(ByAddress(resources), resources, e)
      ensures e in Of(g.dependents, a) <==> e.target == a && ResourcesGive(ByAddress(resources), resources, e)
    {
      MembersOfLists(edges, g.dependencies, g.dependents, a, e);
    }
  }

  /** Index the resources, then scan every property of each. */
  method BuildGraph(resources: seq<Resource>) returns (g: Graph)
    ensures Built(g, resources)
  {
    var index: map<string, Resource> := map[];
    var addresses: seq<string> := [];
    for i := 0 to |resources|
      invariant index == ByAddress(resources[..i])
      invariant |addresses| == i && forall j :: 0 <= j < i ==> addresses[j] == Address(resources[j])
    {
      assert resources[..i + 1][..i] == resources[..i];
      index := index[Address(resources[i]) := resources[i]];
      addresses := addresses + [Address(resources[i])];
    }
    assert resources[..|resources|] == resources;
    var builder := new Builder();
    for i := 0 to |resources|
      invariant fresh(builder) && builder.Valid()
      invariant forall e :: e in builder.edges <==> ResourcesGive(index, resources[..i], e)
    {
      forall e: Dependency
        ensures ResourcesGive(index, resources[..i + 1], e) <==>
                  ResourcesGive(index, resources[..i], e) || ResourceGives(index, resources[i], e)
      {
        OneMoreGives(index, resources, i, e);
      }
      builder.ScanResource(index, resources[i]);
    }
    g := Graph(builder.dependencies, builder.dependents, addresses);
    ListsAreBuilt(builder.edges, g, resources);
  }

  // ---- The walk ----

  ghost predicate Sources(deps: seq<Dependency>, a: string) {
    exists i :: 0 <= i < |deps| && deps[i].source == a
  }

  ghost predicate HasEdge(deps: seq<Dependency>, a: string, field: string) {
    exists i :: 0 <= i < |deps| && deps[i].source == a && deps[i].field == field
  }

  /** One list of dependents: those not seen before join the impact, once each, and are seen from now on. */
  method Visit(deps: seq<Dependency>, seen: set<string>, found: seq<Impact>, depth: nat, willBreak: bool)
    returns (visited: set<string>, impacts: seq<Impact>)
    requires NoRepeats(found) && forall i :: 0 <= i < |found| ==> found[i].address in seen
    ensures NoRepeats(impacts) && found <= impacts && forall i :: 0 <= i < |impacts| ==> impacts[i].address in visited
    ensures forall a :: a in visited <==> a in seen || Sources(deps, a)
    ensures forall a :: Impacted(impacts, a) <==> Impacted(found, a) || (a !in seen && Sources(deps, a))
    ensures forall i :: |found| <= i < |impacts| ==>
              && impacts[i].depth == depth && impacts[i].willBreak == willBreak
              && HasEdge(deps, impacts[i].address, impacts[i].field)
  {
    visited, impacts := seen, found;
    for i := 0 to |deps|
      invariant NoRepeats(impacts) && found <= impacts
      invariant forall j :: 0 <= j < |impacts| ==> impacts[j].address in visited
      invariant forall a :: a in visited <==> a in seen || Sources(deps[..i], a)
      invariant forall a :: Impacted(impacts, a) <==> Impacted(found, a) || (a !in seen && Sources(deps[..i], a))
      invariant forall j :: |found| <= j < |impacts| ==>
                  && impacts[j].depth == depth && impacts[j].willBreak == willBreak
                  && HasEdge(deps, impacts[j].address, impacts[j].field)
    {
      var dep := deps[i];
      forall a ensures Sources(deps[..i + 1], a) <==> Sources(deps[..i], a) || a == dep.source {
        OneMoreSource(deps, i, a);
      }
      if dep.source !in visited {
        visited := visited + {dep.source};
        var impact := Impact(dep.source, dep.field, depth, willBreak);
        forall a ensures Impacted(impacts + [impact], a) <==> Impacted(impacts, a) || a == dep.source {
          OneMoreImpact(impacts, impact, a);
        }
        impacts := impacts + [impact];
      }
    }
    assert deps[..|deps|] == deps;
  }

  lemma OneMoreSource(deps: seq<Dependency>, i: nat, a: string)
    requires i < |deps|
    ensures Sources(deps[..i + 1], a) <==> Sources(deps[..i], a) || a == deps[i].source
  {
    var more := deps[..i + 1];
    if Sources(deps[..i], a) {
      var j :| 0 <= j < i && deps[..i][j].source == a;
      assert more[j].source == a;
    }
    assert more[i] == deps[i];
    if Sources(more, a) {
      var j :| 0 <= j < |more| && more[j].source == a;
      if j < i { assert deps[..i][j].source == a; }
    }
  }

  lemma OneMoreImpact(impacts: seq<Impact>, impact: Impact, a: string)
    ensures Impacted(impacts + [impact], a) <==> Impacted(impacts, a) || a == impact.address
  {
    var more := impacts + [impact];
    if Impacted(impacts, a) {
      var i :| 0 <= i < |impacts| && impacts[i].address == a;
      assert more[i].address == a;
    }
    assert more[|impacts|] == impact;
  }

  /** The reported field is a reference to one of the direct impacts. */
  ghost predicate ThroughDirect(g: Graph, direct: seq<Impact>, impact: Impact) {
    exists i :: 0 <= i < |direct| && HasEdge(Of(g.dependents, direct[i].address), impact.address, impact.field)
  }

  /** Some impact before the n-th is referred to by `a`. */
  ghost predicate RefersToOneOf(g: Graph, impacts: seq<Impact>, n: int, a: string) {
    exists i :: 0 <= i < n && i < |impacts| && Refers(g, a, impacts[i].address)
  }

  lemma OneMoreReferred(g: Graph, impacts: seq<Impact>, n: nat)
    requires n < |impacts|
    ensures forall a :: RefersToOneOf(g, impacts, n + 1, a) <==>
              RefersToOneOf(g, impacts, n, a) || Sources(Of(g.dependents, impacts[n].address), a)
  {
    forall a ensures RefersToOneOf(g, impacts, n + 1, a) <==>
                       RefersToOneOf(g, impacts, n, a) || Sources(Of(g.dependents, impacts[n].address), a)
    {
      assert Sources(Of(g.dependents, impacts[n].address), a) <==> Refers(g, a, impacts[n].address);
    }
  }

  /**
   The walk is exact to depth two on every graph: the direct impact is the resources at distance one, the indirect
   impact those at distance two, each listed once, never the target, and the total is their number.
   */
  method Analyze(g: Graph, target: string, deletes: bool) returns (r: BlastResult)
    ensures forall a :: Impacted(r.direct, a) <==> Distance(g, target, a, 1)
    ensures forall a :: Impacted(r.indirect, a) <==> Distance(g, target, a, 2)
    ensures NoRepeats(r.direct + r.indirect)
    ensures !Impacted(r.direct + r.indirect, target)
    ensures r.total == |r.direct + r.indirect|
    ensures r.severity == Low <==> r.total == 0
    ensures r.severity == Medium <==> 1 <= r.total <= 2
    ensures r.severity == High <==> 3 <= r.total <= 5
    ensures r.severity == Critical <==> 6 <= r.total
    ensures forall i :: 0 <= i < |r.direct| ==> r.direct[i].depth == 1 && r.direct[i].willBreak == deletes
    ensures forall i :: 0 <= i < |r.indirect| ==> r.indirect[i].depth == 2 && r.indirect[i].willBreak == deletes
    ensures forall i :: 0 <= i < |r.direct| ==>
              HasEdge(Of(g.dependents, target), r.direct[i].address, r.direct[i].field)
    ensures forall i :: 0 <= i < |r.indirect| ==> ThroughDirect(g, r.direct, r.indirect[i])
  {
    var visited: set<string> := {target};
    var direct: seq<Impact> := [];
    visited, direct := Visit(Of(g.dependents, target), visited, direct, 1, deletes);
    forall a ensures Impacted(direct, a) <==> Distance(g, target, a, 1) {
      DistanceOne(g, target, a);
    }
    ghost var seenDirectly := visited;
    var indirect: seq<Impact> := [];
    for i := 0 to |direct|
      invariant NoRepeats(indirect) && forall j :: 0 <= j < |indirect| ==> indirect[j].address in visited
      invariant forall a :: a in visited <==> a in seenDirectly || RefersToOneOf(g, direct, i, a)
      invariant forall a :: Impacted(indirect, a) <==> a !in seenDirectly && RefersToOneOf(g, direct, i, a)
      invariant forall j :: 0 <= j < |indirect| ==> indirect[j].depth == 2 && indirect[j].willBreak == deletes
      invariant forall j :: 0 <= j < |indirect| ==> ThroughDirect(g, direct, indirect[j])
    {
      ghost var before := indirect;
      OneMoreReferred(g, direct, i);
      visited, indirect := Visit(Of(g.dependents, direct[i].address), visited, indirect, 2, deletes);
      forall j | 0 <= j < |indirect| ensures ThroughDirect(g, direct, indirect[j]) {
        if j < |before| { assert indirect[j] == before[j]; }
      }
    }
    IndirectIsDistanceTwo(g, target, direct, indirect, seenDirectly);
    Together(direct, indirect, target, seenDirectly);
    var total := |direct| + |indirect|;
    r := BlastResult(direct, indirect, total, ClassifySeverity(total));
  }

  lemma IndirectIsDistanceTwo(g: Graph, target: string, direct: seq<Impact>, indirect: seq<Impact>, seen: set<string>)
    requires forall a :: Impacted(direct, a) <==> Distance(g, target, a, 1)
    requires forall a :: a in seen <==> a == target || Distance(g, target, a, 1)
    requires forall a :: Impacted(indirect, a) <==> a !in seen && RefersToOneOf(g, direct, |direct|, a)
    ensures forall a :: Impacted(indirect, a) <==> Distance(g, target, a, 2)
  {
    forall a ensures Impacted(indirect, a) <==> Distance(g, target, a, 2) {
      DistanceTwo(g, target, a);
      if RefersToOneOf(g, direct, |direct|, a) {
        var i :| 0 <= i < |direct| && Refers(g, a, direct[i].address);
        assert Impacted(direct, direct[i].address);
      }
      if y :| Distance(g, target, y, 1) && Refers(g, a, y) {
        assert Impacted(direct, y);
      }
    }
  }

  lemma Together(direct: seq<Impact>, indirect: seq<Impact>, target: string, seen: set<string>)
    requires NoRepeats(direct) && NoRepeats(indirect) && target in seen
    requires forall i :: 0 <= i < |direct| ==> direct[i].address in seen && direct[i].address != target
    requires forall a :: Impacted(indirect, a) ==> a !in seen
    ensures NoRepeats(direct + indirect) && !Impacted(direct + indirect, target)
  {
    forall i | 0 <= i < |indirect| ensures indirect[i].address !in seen {
      assert Impacted(indirect, indirect[i].address);
    }
  }

  /** The later of the resources with this address. */
  predicate LastAt(resources: seq<Resource>, a: string, i: nat) {
    && i < |resources| && resources[i].kind + "." + resources[i].name == a
    && forall j :: i < j < |resources| ==> resources[j].kind + "." + resources[j].name != a
  }

  lemma {:induction false} ByAddressIsTheLast(resources: seq<Resource>, a: string)
    ensures a in ByAddress(resources) <==> exists i: nat :: LastAt(resources, a, i)
    ensures forall i: nat :: LastAt(resources, a, i) ==>
              a in ByAddress(resources) && ByAddress(resources)[a] == resources[i]
  {
    if resources != [] {
      var n := |resources| - 1;
      var before := resources[..n];
      ByAddressIsTheLast(before, a);
      if Address(resources[n]) == a {
        assert LastAt(resources, a, n);
      } else {
        forall i: nat ensures LastAt(resources, a, i) <==> LastAt(before, a, i) {
          assert i < n ==> before[i] == resources[i];
        }
      }
    }
  }

  /** A property refers to an address by its text, or by its name to a kind that the name stands for. */
  ghost predicate RefersTo(field: string, value: string, address: string, kind: string) {
    || Text.StandsIn(value, address + ".")
    || ((exists stem, ending :: field == stem + ending && ending in {"_id", "_ids", "_arn"})
        && InferResourceType(field) == kind != "")
  }

  /** The resource at `i` has a property that refers to this address. */
  ghost predicate RefersFrom(resources: seq<Resource>, i: nat, address: string, kind: string)
    requires i < |resources|
  {
    exists field :: field in resources[i].properties
      && RefersTo(field, resources[i].properties[field], address, kind)
  }

  lemma SuffixIsEnding(field: string, ending: string)
    ensures Text.HasSuffix(field, ending) <==> exists stem :: field == stem + ending
  {
    if Text.HasSuffix(field, ending) { assert field == field[..|field| - |ending|] + ending; }
    if stem :| field == stem + ending { assert field[|stem|..] == ending; }
  }

  lemma EndingsAre(field: string)
    ensures ReferenceField(field) <==>
              exists stem, ending :: field == stem + ending && ending in {"_id", "_ids", "_arn"}
  {
    SuffixIsEnding(field, "_id");
    SuffixIsEnding(field, "_ids");
    SuffixIsEnding(field, "_arn");
  }

  lemma GivesWhatRefers(index: map<string, Resource>, r: Resource, e: Dependency)
    ensures ResourceGives(index, r, e) <==>
              && e.source == r.kind + "." + r.name && e.target in index && e.target != e.source
              && e.field in r.properties && RefersTo(e.field, r.properties[e.field], e.target, index[e.target].kind)
  {
    if e.field in r.properties {
      Text.ContainsWhatStandsIn(r.properties[e.field], e.target + ".");
      EndingsAre(e.field);
    }
  }

  /** Some resource at `x` has a property that refers to the resource at `y`, which is another one. */
  ghost predicate PropertyRefers(resources: seq<Resource>, x: string, y: string) {
    && x != y && y in ByAddress(resources)
    && exists i: nat :: i < |resources| && resources[i].kind + "." + resources[i].name == x
         && RefersFrom(resources, i, y, ByAddress(resources)[y].kind)
  }

  lemma EdgeIsProperty(resources: seq<Resource>, e: Dependency)
    requires ResourcesGive(ByAddress(resources), resources, e)
    ensures PropertyRefers(resources, e.source, e.target)
  {
    var index := ByAddress(resources);
    var i :| 0 <= i < |resources| && ResourceGives(index, resources[i], e);
    GivesWhatRefers(index, resources[i], e);
    assert RefersFrom(resources, i, e.target, index[e.target].kind);
  }

  lemma PropertyIsEdge(resources: seq<Resource>, x: string, y: string) returns (e: Dependency)
    requires PropertyRefers(resources, x, y)
    ensures e.source == x && e.target == y && ResourcesGive(ByAddress(resources), resources, e)
  {
    var index := ByAddress(resources);
    var i: nat :| i < |resources| && resources[i].kind + "." + resources[i].name == x
                  && RefersFrom(resources, i, y, index[y].kind);
    var field :| field in resources[i].properties
                 && RefersTo(field, resources[i].properties[field], y, index[y].kind);
    e := Dependency(x, y, field);
    GivesWhatRefers(index, resources[i], e);
  }

  /**
   Distance one in a built graph is what the properties say: another resource refers to the target, explicitly or by
   inference, and the target is one of the resources.
   */
  lemma ReferencesAreProperties(g: Graph, resources: seq<Resource>, x: string, y: string)
    requires Built(g, resources)
    ensures Refers(g, x, y) <==> PropertyRefers(resources, x, y)
  {
    if Refers(g, x, y) {
      var n :| 0 <= n < |Of(g.dependents, y)| && Of(g.dependents, y)[n].source == x;
      var e := Of(g.dependents, y)[n];
      assert e in Of(g.dependents, y);
      EdgeIsProperty(resources, e);
    }
    if PropertyRefers(resources, x, y) {
      var e := PropertyIsEdge(resources, x, y);
      assert e in Of(g.dependents, y);
    }
  }
}
