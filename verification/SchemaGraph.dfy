/** The compiled schema: a graph of schema nodes linked by index, cyclic through `$ref`. */

/** Finite directed graphs, and a rank that falls along every edge of an acyclic one. */
module Digraphs {
  type Digraph = seq<seq<nat>>

  ghost predicate Closed(g: Digraph) {
    forall n, m | 0 <= n < |g| && m in g[n] :: m < |g|
  }

  /** Length of the longest walk from n, counted up to k steps. */
  function Depth(g: Digraph, n: nat, k: nat): nat
    decreases k, 0, 0
  {
    if k == 0 || n >= |g| then 0 else MaxDepth(g, g[n], k)
  }

  function MaxDepth(g: Digraph, targets: seq<nat>, k: nat): nat
    requires k > 0
    decreases k - 1, 1, |targets|
  {
    if targets == [] then 0
    else
      var rest := MaxDepth(g, targets[1..], k);
      var first := 1 + Depth(g, targets[0], k - 1);
      if first > rest then first else rest
  }

  function Rank(g: Digraph, n: nat): nat { Depth(g, n, |g|) }

  ghost predicate RankDecreases(g: Digraph) {
    forall n, m | 0 <= n < |g| && m in g[n] :: Rank(g, m) < Rank(g, n)
  }

  ghost predicate Walk(g: Digraph, w: seq<nat>) {
    && |w| > 0
    && (forall i | 0 <= i < |w| :: w[i] < |g|)
    && (forall i | 0 <= i < |w| - 1 :: w[i + 1] in g[w[i]])
  }

  ghost predicate Acyclic(g: Digraph) {
    forall w | Walk(g, w) && |w| > 1 :: w[0] != w[|w| - 1]
  }

  lemma {:induction false} DepthBound(g: Digraph, n: nat, k: nat)
    ensures Depth(g, n, k) <= k
    decreases k, 0, 0
  {
    if k > 0 && n < |g| {
      MaxDepthBound(g, g[n], k);
    }
  }

  lemma {:induction false} MaxDepthBound(g: Digraph, targets: seq<nat>, k: nat)
    requires k > 0
    ensures MaxDepth(g, targets, k) <= k
    decreases k - 1, 1, |targets|
  {
    if targets != [] {
      DepthBound(g, targets[0], k - 1);
      MaxDepthBound(g, targets[1..], k);
    }
  }

  lemma WalkCons(g: Digraph, n: nat, w: seq<nat>)
    requires Walk(g, w) && n < |g| && w[0] in g[n]
    ensures Walk(g, [n] + w)
  {
    var v := [n] + w;
    forall i | 0 <= i < |v| - 1 ensures v[i + 1] in g[v[i]] {
      if i > 0 { assert v[i] == w[i - 1] && v[i + 1] == w[i]; }
    }
  }

  lemma {:induction false} MaxDepthCovers(g: Digraph, targets: seq<nat>, k: nat, m: nat)
    requires k > 0 && m in targets
    ensures MaxDepth(g, targets, k) >= 1 + Depth(g, m, k - 1)
  {
    if targets[0] != m {
      MaxDepthCovers(g, targets[1..], k, m);
    }
  }

  lemma {:induction false} DeepestTarget(g: Digraph, targets: seq<nat>, k: nat) returns (m: nat)
    requires k > 0 && MaxDepth(g, targets, k) > 0
    ensures m in targets && 1 + Depth(g, m, k - 1) == MaxDepth(g, targets, k)
  {
    if 1 + Depth(g, targets[0], k - 1) == MaxDepth(g, targets, k) {
      m := targets[0];
    } else {
      m := DeepestTarget(g, targets[1..], k);
    }
  }

  lemma {:induction false} DeepWalk(g: Digraph, n: nat, k: nat) returns (w: seq<nat>)
    requires n < |g| && Closed(g)
    ensures Walk(g, w) && w[0] == n && |w| == Depth(g, n, k) + 1
    decreases k
  {
    if Depth(g, n, k) == 0 {
      w := [n];
    } else {
      var m := DeepestTarget(g, g[n], k);
      var rest := DeepWalk(g, m, k - 1);
      WalkCons(g, n, rest);
      w := [n] + rest;
    }
  }

  lemma {:induction false} WalkDepth(g: Digraph, w: seq<nat>, k: nat)
    requires Walk(g, w) && |w| - 1 <= k
    ensures Depth(g, w[0], k) >= |w| - 1
    decreases |w|
  {
    if |w| > 1 {
      assert Walk(g, w[1..]);
      WalkDepth(g, w[1..], k - 1);
      MaxDepthCovers(g, g[w[0]], k, w[1]);
    }
  }

  lemma {:induction false} Pigeonhole(w: seq<nat>, bound: nat) returns (i: nat, j: nat)
    requires |w| > bound && forall k | 0 <= k < |w| :: w[k] < bound
    ensures i < j < |w| && w[i] == w[j]
    decreases bound
  {
    var last := |w| - 1;
    if k :| 0 <= k < last && w[k] == w[last] {
      i, j := k, last;
    } else {
      // drop the last element and give its value to the elements equal to bound - 1
      var v := seq(last, k requires 0 <= k < last => if w[k] == bound - 1 then w[last] else w[k]);
      i, j := Pigeonhole(v, bound - 1);
    }
  }

  lemma {:induction false} RankFallsAlong(g: Digraph, w: seq<nat>)
    requires RankDecreases(g) && Walk(g, w) && |w| > 1
    ensures Rank(g, w[|w| - 1]) < Rank(g, w[0])
    decreases |w|
  {
    assert w[1] in g[w[0]];
    if |w| > 2 {
      assert Walk(g, w[1..]);
      RankFallsAlong(g, w[1..]);
    }
  }

  /** In an acyclic graph a walk never has more vertices than the graph. */
  lemma AcyclicWalkIsShort(g: Digraph, w: seq<nat>)
    requires Acyclic(g) && Walk(g, w)
    ensures |w| <= |g|
  {
    if |w| > |g| {
      var i, j := Pigeonhole(w, |g|);
      var cycle := w[i..j + 1];
      assert cycle[0] == cycle[|cycle| - 1];
      assert Walk(g, cycle);
    }
  }

  lemma RankDecreasesIffAcyclic(g: Digraph)
    requires Closed(g)
    ensures RankDecreases(g) <==> Acyclic(g)
  {
    if RankDecreases(g) {
      forall w | Walk(g, w) && |w| > 1 ensures w[0] != w[|w| - 1] {
        RankFallsAlong(g, w);
      }
    }
    if Acyclic(g) {
      forall n, m | 0 <= n < |g| && m in g[n] ensures Rank(g, m) < Rank(g, n) {
        var w := DeepWalk(g, m, |g|);
        WalkCons(g, n, w);
        AcyclicWalkIsShort(g, [n] + w);
        WalkDepth(g, [n] + w, |g|);
      }
    }
  }
}

module SchemaGraph {
  import opened Wrappers
  import Json
  import D = Digraphs

  type Id = nat

  /** Bounds of a number validator; an exclusive keyword has replaced the inclusive one. */
  datatype Bounds = Bounds(
    maximum: Option<real>, exclusiveMaximum: bool,
    minimum: Option<real>, exclusiveMinimum: bool,
    multipleOf: Option<real>)

  datatype StringRules = StringRules(
    minLength: Option<nat>, maxLength: Option<nat>,
    content: Option<(string, string)>, pattern: Option<string>, format: Option<string>)

  datatype Property = Property(name: string, schema: Id)
  datatype Requirement = Names(names: seq<string>) | Schema(schema: Id)
  datatype Dependency = Dependency(name: string, requirement: Requirement)

  datatype ObjectRules = ObjectRules(
    maxProperties: Option<nat>, minProperties: Option<nat>, required: seq<string>,
    properties: seq<Property>, patternProperties: seq<Property>, additionalProperties: Option<Id>,
    dependencies: seq<Dependency>, propertyNames: Option<Id>)

  datatype ArrayRules = ArrayRules(
    maxItems: Option<nat>, minItems: Option<nat>, uniqueItems: bool,
    itemsSchema: Option<Id>, items: seq<Id>, additionalItems: Option<Id>, contains: Option<Id>)

  datatype Combination = AllOf | AnyOf | OneOf
  datatype Logic = Not(subschema: Id) | Combine(combination: Combination, subschemas: seq<Id>)

  /** The validator for each kind of instance; an absent one rejects the kind. */
  datatype TypeTable = TypeTable(
    nullType: bool, booleanType: bool,
    integerType: Option<Bounds>, unsignedType: Option<Bounds>, floatType: Option<Bounds>,
    stringType: Option<StringRules>, objectType: Option<ObjectRules>, arrayType: Option<ArrayRules>)

  datatype Node =
    | BooleanSchema(allows: bool)
    | Reference(id: string, defaultValue: Json.Json, target: Option<Id>)
    | TypeSchema(defaultValue: Json.Json, table: TypeTable,
                 enumeration: Option<seq<Json.Json>>, constant: Option<Json.Json>,
                 logic: seq<Logic>,
                 ifSchema: Option<Id>, thenSchema: Option<Id>, elseSchema: Option<Id>)

  type Graph = seq<Node>

  /** The same schema with another default. */
  function WithDefault(node: Node, d: Json.Json): Node
    requires !node.BooleanSchema?
  {
    node.(defaultValue := d)
  }

  /** `properties_` is a `std::map`: no name is listed twice. */
  ghost predicate DistinctNames(properties: seq<Property>) {
    forall i, h | 0 <= i < h < |properties| :: properties[i].name != properties[h].name
  }

  ghost predicate ListsEachNameOnce(node: Node) {
    node.TypeSchema? && node.table.objectType.Some? ==> DistinctNames(node.table.objectType.value.properties)
  }

  /** Callbacks and library calls the validator consults; each is an arbitrary function. */
  datatype Checks = Checks(
    matches: (string, string) -> bool,             // pattern, text
    violatesMultipleOf: (real, real) -> bool,      // value, divisor
    formatError: (string, string) -> Option<string>,
    contentError: (string, string, string) -> Option<string>)

  // ---------------------------------------------------------------- edges

  function OptionIds(o: Option<Id>): seq<Id> {
    if o.Some? then [o.value] else []
  }

  function LogicIds(logic: seq<Logic>): (ids: seq<Id>)
    ensures forall i | 0 <= i < |logic| :: logic[i].Not? ==> logic[i].subschema in ids
    ensures forall i | 0 <= i < |logic| && logic[i].Combine? :: forall s | s in logic[i].subschemas :: s in ids
  {
    if logic == [] then []
    else (match logic[0] case Not(s) => [s] case Combine(_, ss) => ss) + LogicIds(logic[1..])
  }

  function DependencyIds(dependencies: seq<Dependency>): (ids: seq<Id>)
    ensures forall i | 0 <= i < |dependencies| ::
      dependencies[i].requirement.Schema? ==> dependencies[i].requirement.schema in ids
  {
    if dependencies == [] then []
    else (match dependencies[0].requirement case Names(_) => [] case Schema(s) => [s])
         + DependencyIds(dependencies[1..])
  }

  function PropertyIds(properties: seq<Property>): (ids: seq<Id>)
    ensures forall i | 0 <= i < |properties| :: properties[i].schema in ids
  {
    if properties == [] then [] else [properties[0].schema] + PropertyIds(properties[1..])
  }

  /** Schemas a node applies to the very instance it was given. */
  function SameInstanceIds(node: Node): seq<Id> {
    match node
    case BooleanSchema(_) => []
    case Reference(_, _, target) => OptionIds(target)
    case TypeSchema(_, table, _, _, logic, i, t, e) =>
      LogicIds(logic) + OptionIds(i) + OptionIds(t) + OptionIds(e)
      + (if table.objectType.Some? then DependencyIds(table.objectType.value.dependencies) else [])
  }

  /** Schemas a node applies to a property name, a member or an element of its instance. */
  function DescendingIds(node: Node): seq<Id> {
    match node
    case TypeSchema(_, table, _, _, _, _, _, _) =>
      (if table.objectType.Some? then ObjectIds(table.objectType.value) else [])
      + (if table.arrayType.Some? then ArrayIds(table.arrayType.value) else [])
    case _ => []
  }

  function ObjectIds(o: ObjectRules): seq<Id> {
    PropertyIds(o.properties) + PropertyIds(o.patternProperties)
    + OptionIds(o.additionalProperties) + OptionIds(o.propertyNames)
  }

  function ArrayIds(a: ArrayRules): seq<Id> {
    OptionIds(a.itemsSchema) + a.items + OptionIds(a.additionalItems) + OptionIds(a.contains)
  }

  ghost predicate Within(ids: seq<Id>, bound: nat) {
    forall i | i in ids :: i < bound
  }

  ghost predicate Closed(g: Graph) {
    && (forall n {:trigger SameInstanceIds(g[n])} | 0 <= n < |g| :: Within(SameInstanceIds(g[n]), |g|))
    && (forall n {:trigger DescendingIds(g[n])} | 0 <= n < |g| :: Within(DescendingIds(g[n]), |g|))
  }

  /** No reference is left without its schema. */
  ghost predicate Resolved(g: Graph) {
    forall n | 0 <= n < |g| :: g[n].Reference? ==> g[n].target.Some?
  }

  // ---------------------------------------------------------------- rank

  function SameInstanceEdges(g: Graph): (e: D.Digraph)
    ensures |e| == |g|
  {
    seq(|g|, n requires 0 <= n < |g| => SameInstanceIds(g[n]))
  }

  /** Length of the longest chain of schemas that can be applied to one instance from n on. */
  function Rank(g: Graph, n: Id): nat { D.Rank(SameInstanceEdges(g), n) }

  ghost predicate WellFounded(g: Graph) {
    D.RankDecreases(SameInstanceEdges(g))
  }

  /** Every cycle passes through a keyword that descends into the instance. */
  ghost predicate NoSameInstanceCycle(g: Graph) {
    D.Acyclic(SameInstanceEdges(g))
  }

  lemma EdgeRank(g: Graph, n: Id, m: Id)
    requires WellFounded(g) && n < |g| && m in SameInstanceIds(g[n])
    ensures Rank(g, m) < Rank(g, n)
  {
    assert m in SameInstanceEdges(g)[n];
  }

  /** The rank falls along every same-instance edge exactly when no cycle stays on one instance. */
  lemma WellFoundedIffNoCycle(g: Graph)
    requires Closed(g)
    ensures WellFounded(g) <==> NoSameInstanceCycle(g)
  {
    forall n, m | 0 <= n < |g| && m in SameInstanceEdges(g)[n] ensures m < |g| {
      assert SameInstanceEdges(g)[n] == SameInstanceIds(g[n]);
    }
    D.RankDecreasesIffAcyclic(SameInstanceEdges(g));
  }

  // ---------------------------------------------------------------- references to references

  /** Where n references in a row lead, as long as there are references to follow. */
  function Hops(g: Graph, from: Id, n: nat): Option<Id>
    decreases n
  {
    if n == 0 then Some(from)
    else if from < |g| && g[from].Reference? && g[from].target.Some? then Hops(g, g[from].target.value, n - 1)
    else None
  }

  lemma {:induction false} HopsJoin(g: Graph, from: Id, a: nat, b: nat)
    ensures Hops(g, from, a + b).Some? ==> Hops(g, from, a).Some?
    ensures Hops(g, from, a).Some? ==> Hops(g, from, a + b) == Hops(g, Hops(g, from, a).value, b)
    decreases a
  {
    if a > 0 && from < |g| && g[from].Reference? && g[from].target.Some? {
      HopsJoin(g, g[from].target.value, a - 1, b);
    }
  }

  ghost predicate Returns(g: Graph, from: Id, a: nat, b: nat) {
    b > 0 && Hops(g, from, a).Some? && Hops(g, Hops(g, from, a).value, b) == Hops(g, from, a)
  }

  lemma {:induction false} AroundForever(g: Graph, from: Id, a: nat, b: nat, n: nat)
    requires Returns(g, from, a, b)
    ensures Hops(g, from, n).Some?
    decreases n
  {
    HopsJoin(g, from, a, b);
    if n <= a + b {
      HopsJoin(g, from, n, a + b - n);
    } else {
      AroundForever(g, from, a, b, n - b);
      HopsJoin(g, from, a, n - b - a);
      HopsJoin(g, from, a + b, n - a - b);
    }
  }

  ghost predicate Forever(g: Graph, from: Id) {
    forall n: nat :: Hops(g, from, n).Some?
  }

  /** Validation follows references for ever exactly when they lead back to one of them. */
  lemma ReferencesForever(g: Graph, from: Id)
    ensures Forever(g, from) <==> exists a: nat, b: nat :: Returns(g, from, a, b)
  {
    if exists a: nat, b: nat :: Returns(g, from, a, b) {
      var a: nat, b: nat :| Returns(g, from, a, b);
      forall n: nat ensures Hops(g, from, n).Some? { AroundForever(g, from, a, b, n); }
    } else if Forever(g, from) {
      var a, b := SomeReturn(g, from);
      assert false;
    }
  }

  lemma SomeReturn(g: Graph, from: Id) returns (a: nat, b: nat)
    requires Forever(g, from)
    ensures Returns(g, from, a, b)
  {
    forall n: nat ensures Hops(g, from, n).value < |g| {
      HopsJoin(g, from, n, 1);
      assert Hops(g, from, n + 1).Some?;
    }
    var w := seq(|g| + 1, n requires 0 <= n <= |g| => Hops(g, from, n).value);
    var i, j := D.Pigeonhole(w, |g|);
    HopsJoin(g, from, i, j - i);
    assert w[i] == w[j];
    a, b := i, j - i;
  }
}
