/**
 Blast radius: a dependency graph built from resource properties, and what a change of one resource reaches in one and
 in two steps. The graph is any graph, cycles included.
 */
module Blast {
  import Text

  /** Property values as they print. */
  datatype Resource = Resource(kind: string, name: string, properties: map<string, string>)

  datatype Dependency = Dependency(source: string, target: string, field: string)

  type Adjacency = map<string, seq<Dependency>>

  datatype Graph = Graph(dependencies: Adjacency, dependents: Adjacency, resources: seq<string>)

  function Address(r: Resource): string { r.kind + "." + r.name }

  /** The resource of each address; of two with one address the later. */
  function ByAddress(resources: seq<Resource>): map<string, Resource> {
    if resources == [] then map[]
    else ByAddress(resources[..|resources| - 1])[Address(resources[|resources| - 1]) := resources[|resources| - 1]]
  }

  function InferResourceType(field: string): string {
    match field
    case "vpc_id" => "aws_vpc"
    case "subnet_id" => "aws_subnet"
    case "subnet_ids" => "aws_subnet"
    case "security_group_id" => "aws_security_group"
    case "security_group_ids" => "aws_security_group"
    case "iam_role_arn" => "aws_iam_role"
    case "role_arn" => "aws_iam_role"
    case "target_group_arn" => "aws_lb_target_group"
    case "lb_arn" => "aws_lb"
    case "certificate_arn" => "aws_acm_certificate"
    case "kms_key_id" => "aws_kms_key"
    case "log_group_name" => "aws_cloudwatch_log_group"
    case "sns_topic_arn" => "aws_sns_topic"
    case "sqs_queue_arn" => "aws_sqs_queue"
    case "bucket" => "aws_s3_bucket"
    case "function_name" => "aws_lambda_function"
    case "cluster_id" => "aws_ecs_cluster"
    case "db_subnet_group_name" => "aws_db_subnet_group"
    case "route_table_id" => "aws_route_table"
    case "internet_gateway_id" => "aws_internet_gateway"
    case "nat_gateway_id" => "aws_nat_gateway"
    case "eip_id" => "aws_eip"
    case _ => ""
  }

  predicate ReferenceField(field: string) {
    Text.HasSuffix(field, "_id") || Text.HasSuffix(field, "_ids") || Text.HasSuffix(field, "_arn")
  }

  /** The kind a field points at by its name alone, if its name has one of the three endings. */
  function InferredKind(field: string): string {
    if ReferenceField(field) then InferResourceType(field) else ""
  }

  // ---- Which edges there should be ----

  predicate Explicit(value: string, to: string) { Text.Contains(value, to + ".") }

  /** One property of one resource gives these edges. */
  predicate PropertyGives(index: map<string, Resource>, source: string, field: string, value: string, e: Dependency) {
    && e.source == source && e.field == field && e.target in index && e.target != source
    && (Explicit(value, e.target) || (InferredKind(field) != "" && index[e.target].kind == InferredKind(field)))
  }

  predicate ResourceGives(index: map<string, Resource>, r: Resource, e: Dependency) {
    e.field in r.properties && PropertyGives(index, Address(r), e.field, r.properties[e.field], e)
  }

  predicate ResourcesGive(index: map<string, Resource>, resources: seq<Resource>, e: Dependency) {
    exists i :: 0 <= i < |resources| && ResourceGives(index, resources[i], e)
  }

  lemma GivesSnoc(index: map<string, Resource>, before: seq<Resource>, r: Resource, e: Dependency)
    ensures ResourcesGive(index, before + [r], e) <==> ResourcesGive(index, before, e) || ResourceGives(index, r, e)
  {
    var more := before + [r];
    if ResourcesGive(index, before, e) {
      var j :| 0 <= j < |before| && ResourceGives(index, before[j], e);
      assert more[j] == before[j];
    }
    assert more[|before|] == r;
  }

  // ---- Two maps of one list ----

  function Of(a: Adjacency, key: string): seq<Dependency> {
    if key in a then a[key] else []
  }

  function From(edges: seq<Dependency>, source: string): seq<Dependency> {
    if edges == [] then []
    else From(edges[..|edges| - 1], source) + (if edges[|edges| - 1].source == source then [edges[|edges| - 1]] else [])
  }

  function To(edges: seq<Dependency>, target: string): seq<Dependency> {
    if edges == [] then []
    else To(edges[..|edges| - 1], target) + (if edges[|edges| - 1].target == target then [edges[|edges| - 1]] else [])
  }

  /** Both maps are the same list of edges, once by source and once by target, in the order of the list. */
  ghost predicate Lists(edges: seq<Dependency>, dependencies: Adjacency, dependents: Adjacency) {
    && (forall a :: Of(dependencies, a) == From(edges, a))
    && (forall a :: Of(dependents, a) == To(edges, a))
  }

  lemma Appended(edges: seq<Dependency>, e: Dependency, a: string)
    ensures From(edges + [e], a) == if e.source == a then From(edges, a) + [e] else From(edges, a)
    ensures To(edges + [e], a) == if e.target == a then To(edges, a) + [e] else To(edges, a)
  {
    assert (edges + [e])[..|edges + [e]| - 1] == edges;
  }

  function Count(edges: seq<Dependency>, e: Dependency): nat {
    if edges == [] then 0 else Count(edges[..|edges| - 1], e) + (if edges[|edges| - 1] == e then 1 else 0)
  }

  lemma CountSnoc(edges: seq<Dependency>, last: Dependency, e: Dependency)
    ensures Count(edges + [last], e) == Count(edges, e) + if last == e then 1 else 0
  {
    assert (edges + [last])[..|edges + [last]| - 1] == edges;
  }

  lemma {:induction false} CountFrom(edges: seq<Dependency>, e: Dependency)
    ensures Count(From(edges, e.source), e) == Count(edges, e)
  {
    if edges != [] {
      var before, last := edges[..|edges| - 1], edges[|edges| - 1];
      assert edges == before + [last];
      CountFrom(before, e);
      Appended(before, last, e.source);
      CountSnoc(before, last, e);
      CountSnoc(From(before, e.source), last, e);
    }
  }

  lemma {:induction false} CountTo(edges: seq<Dependency>, e: Dependency)
    ensures Count(To(edges, e.target), e) == Count(edges, e)
  {
    if edges != [] {
      var before, last := edges[..|edges| - 1], edges[|edges| - 1];
      assert edges == before + [last];
      CountTo(before, e);
      Appended(before, last, e.target);
      CountSnoc(before, last, e);
      CountSnoc(To(before, e.target), last, e);
    }
  }

  lemma {:induction false} MemberOfFrom(edges: seq<Dependency>, a: string, e: Dependency)
    ensures e in From(edges, a) <==> e in edges && e.source == a
    ensures e in To(edges, a) <==> e in edges && e.target == a
  {
    if edges != [] {
      MemberOfFrom(edges[..|edges| - 1], a, e);
      assert edges == edges[..|edges| - 1] + [edges[|edges| - 1]];
    }
  }

  /** The graph is what the resources give: each edge as often under its source as under its target, and no other. */
  ghost predicate Built(g: Graph, resources: seq<Resource>) {
    && (forall e: Dependency :: Count(Of(g.dependencies, e.source), e) == Count(Of(g.dependents, e.target), e))
    && (forall a, e :: e in Of(g.dependencies, a) <==>
          e.source == a && ResourcesGive(ByAddress(resources), resources, e))
    && (forall a, e :: e in Of(g.dependents, a) <==> e.target == a && ResourcesGive(ByAddress(resources), resources, e))
    && |g.resources| == |resources| && forall i :: 0 <= i < |resources| ==> g.resources[i] == Address(resources[i])
  }

  // ---- Distances ----

  /** `x` has a property that refers to `y`. */
  ghost predicate Refers(g: Graph, x: string, y: string) {
    exists i :: 0 <= i < |Of(g.dependents, y)| && Of(g.dependents, y)[i].source == x
  }

  /** A chain of n references leads from `x` to the target. */
  ghost predicate Reaches(g: Graph, target: string, x: string, n: nat)
    decreases n
  {
    if n == 0 then x == target else exists y :: Reaches(g, target, y, n - 1) && Refers(g, x, y)
  }

  /** The shortest chain from `x` to the target has n references. */
  ghost predicate Distance(g: Graph, target: string, x: string, n: nat) {
    Reaches(g, target, x, n) && forall k: nat :: k < n ==> !Reaches(g, target, x, k)
  }

  lemma ReachesOne(g: Graph, target: string, x: string)
    ensures Reaches(g, target, x, 1) <==> Refers(g, x, target)
  {
    assert Reaches(g, target, target, 0);
  }

  /** Distance one is a direct reference from another resource. */
  lemma DistanceOne(g: Graph, target: string, x: string)
    ensures Distance(g, target, x, 1) <==> x != target && Refers(g, x, target)
  {
    ReachesOne(g, target, x);
    assert Reaches(g, target, x, 0) <==> x == target;
  }

  /** Distance two is a reference to something at distance one, from neither the target nor distance one. */
  lemma DistanceTwo(g: Graph, target: string, x: string)
    ensures Distance(g, target, x, 2) <==>
              x != target && !Distance(g, target, x, 1) && exists y :: Distance(g, target, y, 1) && Refers(g, x, y)
  {
    ReachesOne(g, target, x);
    DistanceOne(g, target, x);
    assert Reaches(g, target, x, 0) <==> x == target;
    if x != target && !Refers(g, x, target) {
      if Reaches(g, target, x, 2) {
        var y :| Reaches(g, target, y, 1) && Refers(g, x, y);
        ReachesOne(g, target, y);
        DistanceOne(g, target, y);
        assert Distance(g, target, y, 1);
      }
      if y :| Distance(g, target, y, 1) && Refers(g, x, y) {
        assert Reaches(g, target, y, 1);
        assert Reaches(g, target, x, 2);
      }
    }
  }

  datatype Severity = Low | Medium | High | Critical

  datatype Impact = Impact(address: string, field: string, depth: nat, willBreak: bool)

  datatype BlastResult = BlastResult(direct: seq<Impact>, indirect: seq<Impact>, total: nat, severity: Severity)

  ghost predicate Impacted(impacts: seq<Impact>, a: string) {
    exists i :: 0 <= i < |impacts| && impacts[i].address == a
  }

  ghost predicate NoRepeats(impacts: seq<Impact>) {
    forall i, j :: 0 <= i < j < |impacts| ==> impacts[i].address != impacts[j].address
  }

  function ClassifySeverity(total: nat): Severity {
    if total == 0 then Low else if total <= 2 then Medium else if total <= 5 then High else Critical
  }

  lemma SuffixEnds(s: string, suffix: string)
    requires Text.HasSuffix(s, suffix) && suffix != ""
    ensures s != "" && s[|s| - 1] == suffix[|suffix| - 1]
  {
    assert s[|s| - |suffix|..][|suffix| - 1] == s[|s| - 1];
  }

  /** A reference field ends in d, s or n. */
  lemma ReferenceEnding(field: string)
    ensures ReferenceField(field) ==> field != "" && field[|field| - 1] in {'d', 's', 'n'}
  {
    if Text.HasSuffix(field, "_id") { SuffixEnds(field, "_id"); }
    if Text.HasSuffix(field, "_ids") { SuffixEnds(field, "_ids"); }
    if Text.HasSuffix(field, "_arn") { SuffixEnds(field, "_arn"); }
  }

  lemma Tabled(field: string)
    requires field in {"log_group_name", "bucket", "function_name", "db_subnet_group_name"}
    ensures InferResourceType(field) != ""
  {
  }

  /** Four of the table's field names have none of the endings, so no edge is ever inferred from them. */
  lemma UnusedInferences(field: string)
    requires field == "log_group_name" || field == "bucket" || field == "function_name"
             || field == "db_subnet_group_name"
    ensures InferResourceType(field) != "" && InferredKind(field) == ""
  {
    ReferenceEnding(field);
    Tabled(field);
  }
}
