/** Nothing that is validated on the way loses its patch operations: those of failed branches, of
    `not`, and of elements tried in vain are kept with all others. */

module KeptPatch {
  import opened Wrappers
  import opened Json
  import opened SchemaGraph
  import opened Evaluation
  import opened Defaults
  import opened Messages
  import Meaning

  /** The operation is one that validating against this schema adds. */
  ghost predicate Adds(g: Graph, k: Checks, n: Id, p: Pointer, j: Json, op: Addition)
    requires Evaluable(g) && n < |g|
  {
    op in Run(g, k, n, p, j).patch
  }

  /** A reference adds what its schema adds. */
  lemma ReferenceAdds(g: Graph, k: Checks, n: Id, p: Pointer, j: Json, op: Addition)
    requires Evaluable(g) && n < |g| && g[n].Reference? && g[n].target.Some?
    ensures g[n].target.value < |g| && (Adds(g, k, n, p, j, op) <==> Adds(g, k, g[n].target.value, p, j, op))
  {
    NodeParts(g, n);
  }

  // ---------------------------------------------------------------- logic

  /** `not` keeps what its schema adds, whether it succeeds or fails. */
  lemma NotAdds(g: Graph, k: Checks, n: Id, p: Pointer, j: Json, l: nat, op: Addition)
    requires Evaluable(g) && n < |g| && g[n].TypeSchema? && l < |g[n].logic| && g[n].logic[l].Not?
    requires g[n].logic[l].subschema < |g| && Adds(g, k, g[n].logic[l].subschema, p, j, op)
    ensures Adds(g, k, n, p, j, op)
  {
    NodeParts(g, n);
    assert LogicBelow(g, Rank(g, n), g[n].logic[l]);
    assert op in RunOneLogic(g, k, Rank(g, n), g[n].logic[l], p, j).patch;
    LogicAdds(g, k, n, p, j, l, op);
  }

  lemma {:induction false} LogicAdds(g: Graph, k: Checks, n: Id, p: Pointer, j: Json, l: nat, op: Addition)
    requires Evaluable(g) && n < |g| && g[n].TypeSchema? && NodeOk(g, n) && l < |g[n].logic|
    requires LogicBelow(g, Rank(g, n), g[n].logic[l])
    requires op in RunOneLogic(g, k, Rank(g, n), g[n].logic[l], p, j).patch
    ensures Adds(g, k, n, p, j, op)
  {
    var node, r := g[n], Rank(g, n);
    InLogic(g, k, r, node.logic, p, j, l, op);
    AmongFour(RunTable(g, k, r, node.table, p, j), RunValues(node.enumeration, node.constant, p, j),
              RunLogic(g, k, r, node.logic, p, j),
              RunIf(g, k, r, node.ifSchema, node.thenSchema, node.elseSchema, p, j), op);
  }

  lemma AmongFour(a: Outcome, b: Outcome, c: Outcome, d: Outcome, op: Addition)
    ensures op in Then(Then(a, b), Then(c, d)).patch <==>
      op in a.patch || op in b.patch || op in c.patch || op in d.patch
  {
  }

  lemma {:induction false} InLogic(g: Graph, k: Checks, r: nat, logic: seq<Logic>, p: Pointer, j: Json, l: nat,
        op: Addition)
    requires Evaluable(g) && AllLogicBelow(g, r, logic) && l < |logic|
    requires LogicBelow(g, r, logic[l]) && op in RunOneLogic(g, k, r, logic[l], p, j).patch
    ensures op in RunLogic(g, k, r, logic, p, j).patch
    decreases l
  {
    if l > 0 { InLogic(g, k, r, logic[1..], p, j, l - 1, op); }
  }

  /** The schema with this number is tried: `allOf` goes on while all succeed, `anyOf` until one does,
      `oneOf` until two have. */
  ghost predicate Tried(g: Graph, k: Checks, c: Combination, ss: seq<Id>, p: Pointer, j: Json, count: nat, i: nat)
    requires Evaluable(g) && i < |ss| && forall h | 0 <= h < |ss| :: ss[h] < |g|
  {
    match c
    case AllOf => Successes(g, k, ss[..i], p, j) == i
    case AnyOf => count == 0 && Successes(g, k, ss[..i], p, j) == 0
    case OneOf => count + Successes(g, k, ss[..i], p, j) <= 1
  }

  /** What the first schema did decides whether the next is tried. */
  lemma {:induction false} TriedOn(g: Graph, k: Checks, c: Combination, ss: seq<Id>, p: Pointer, j: Json, count: nat,
        i: nat)
    requires Evaluable(g) && 0 < i < |ss| && forall h | 0 <= h < |ss| :: ss[h] < |g|
    requires Tried(g, k, c, ss, p, j, count, i)
    ensures var sub := Run(g, k, ss[0], p, j);
      var next := if sub.errors == [] then count + 1 else count;
      && Completion(c, sub.errors, next, p, j).None?
      && Tried(g, k, c, ss[1..], p, j, next, i - 1)
  {
    assert ss[..i][0] == ss[0] && ss[..i][1..] == ss[1..][..i - 1];
    SuccessesBound(g, k, ss[1..][..i - 1], p, j);
  }

  lemma {:induction false} InCombination(g: Graph, k: Checks, r: nat, c: Combination, ss: seq<Id>, p: Pointer, j: Json,
        count: nat, i: nat, op: Addition)
    requires Evaluable(g) && AllBelow(g, r, ss) && i < |ss| && Tried(g, k, c, ss, p, j, count, i)
    requires Adds(g, k, ss[i], p, j, op)
    ensures op in RunCombination(g, k, r, c, ss, p, j, count).patch
    decreases i
  {
    if i > 0 {
      var next := if Run(g, k, ss[0], p, j).errors == [] then count + 1 else count;
      TriedOn(g, k, c, ss, p, j, count, i);
      InCombination(g, k, r, c, ss[1..], p, j, next, i - 1, op);
      CombinationGoesOn(g, k, r, c, ss, p, j, count, next, op);
    } else {
      CombinationTries(g, k, r, c, ss, p, j, count, op);
    }
  }

  lemma {:induction false} CombinationGoesOn(g: Graph, k: Checks, r: nat, c: Combination, ss: seq<Id>, p: Pointer,
        j: Json, count: nat, next: nat, op: Addition)
    requires Evaluable(g) && AllBelow(g, r, ss) && ss != [] && AllBelow(g, r, ss[1..])
    requires next == if Run(g, k, ss[0], p, j).errors == [] then count + 1 else count
    requires Completion(c, Run(g, k, ss[0], p, j).errors, next, p, j).None?
    requires op in RunCombination(g, k, r, c, ss[1..], p, j, next).patch
    ensures op in RunCombination(g, k, r, c, ss, p, j, count).patch
  {
  }

  lemma {:induction false} CombinationTries(g: Graph, k: Checks, r: nat, c: Combination, ss: seq<Id>, p: Pointer,
        j: Json, count: nat, op: Addition)
    requires Evaluable(g) && AllBelow(g, r, ss) && ss != [] && Adds(g, k, ss[0], p, j, op)
    ensures op in RunCombination(g, k, r, c, ss, p, j, count).patch
  {
  }

  /** `allOf`, `anyOf` and `oneOf` keep what every schema adds that they try. */
  lemma CombinationAdds(g: Graph, k: Checks, n: Id, p: Pointer, j: Json, l: nat, i: nat, op: Addition)
    requires Evaluable(g) && n < |g| && g[n].TypeSchema? && l < |g[n].logic| && g[n].logic[l].Combine?
    requires var ss := g[n].logic[l].subschemas;
      && i < |ss| && (forall h | 0 <= h < |ss| :: ss[h] < |g|)
      && Tried(g, k, g[n].logic[l].combination, ss, p, j, 0, i) && Adds(g, k, ss[i], p, j, op)
    ensures Adds(g, k, n, p, j, op)
  {
    NodeParts(g, n);
    var r, logic := Rank(g, n), g[n].logic[l];
    assert LogicBelow(g, r, logic);
    InCombination(g, k, r, logic.combination, logic.subschemas, p, j, 0, i, op);
    LogicAdds(g, k, n, p, j, l, op);
  }

  /** `if` keeps what its schema adds, and what the branch adds that it chooses. */
  lemma {:induction false} IfAdds(g: Graph, k: Checks, n: Id, p: Pointer, j: Json, op: Addition)
    requires Evaluable(g) && n < |g| && g[n].TypeSchema? && g[n].ifSchema.Some? && g[n].ifSchema.value < |g|
    requires
      var branch := if Run(g, k, g[n].ifSchema.value, p, j).errors == [] then g[n].thenSchema else g[n].elseSchema;
      Adds(g, k, g[n].ifSchema.value, p, j, op)
      || (branch.Some? && branch.value < |g| && Adds(g, k, branch.value, p, j, op))
    ensures Adds(g, k, n, p, j, op)
  {
    NodeParts(g, n);
    var node, r := g[n], Rank(g, n);
    assert op in RunIf(g, k, r, node.ifSchema, node.thenSchema, node.elseSchema, p, j).patch;
    AmongFour(RunTable(g, k, r, node.table, p, j), RunValues(node.enumeration, node.constant, p, j),
              RunLogic(g, k, r, node.logic, p, j),
              RunIf(g, k, r, node.ifSchema, node.thenSchema, node.elseSchema, p, j), op);
  }

  // ---------------------------------------------------------------- objects and arrays

  lemma {:induction false} ObjectAdds(g: Graph, k: Checks, n: Id, p: Pointer, members: seq<Member>, op: Addition)
    requires Evaluable(g) && n < |g| && g[n].TypeSchema? && NodeOk(g, n) && g[n].table.objectType.Some?
    requires op in RunMembers(g, k, g[n].table.objectType.value, p, members, 0).patch
      || op in RunDependencies(g, k, Rank(g, n), g[n].table.objectType.value.dependencies, p, members).patch
    ensures Adds(g, k, n, p, Object(members), op)
  {
    ObjectRunAdds(g, k, Rank(g, n), g[n].table.objectType.value, p, members, op);
    ObjectTable(g, k, Rank(g, n), g[n].table, p, members);
    TableAdds(g, k, n, p, Object(members), op);
  }

  lemma {:induction false} ObjectTable(g: Graph, k: Checks, r: nat, table: TypeTable, p: Pointer, members: seq<Member>)
    requires Evaluable(g) && TableOk(g, r, table) && table.objectType.Some?
    ensures RunTable(g, k, r, table, p, Object(members)) == RunObject(g, k, r, table.objectType.value, p, members)
  {
  }

  lemma {:induction false} TableAdds(g: Graph, k: Checks, n: Id, p: Pointer, j: Json, op: Addition)
    requires Evaluable(g) && n < |g| && g[n].TypeSchema? && NodeOk(g, n)
    requires op in RunTable(g, k, Rank(g, n), g[n].table, p, j).patch
    ensures Adds(g, k, n, p, j, op)
  {
    var rest := TablePatch(g, k, n, p, j);
  }

  lemma {:induction false} ObjectRunAdds(g: Graph, k: Checks, r: nat, v: ObjectRules, p: Pointer, members: seq<Member>,
        op: Addition)
    requires Evaluable(g) && ObjectWithin(g, v) && DependenciesBelow(g, r, v.dependencies)
    requires op in RunMembers(g, k, v, p, members, 0).patch
      || op in RunDependencies(g, k, r, v.dependencies, p, members).patch
    ensures op in RunObject(g, k, r, v, p, members).patch
  {
    AmongLast(RunPresence(v, p, members), RunMembers(g, k, v, p, members, 0), RunDefaults(g, v.properties, p, members),
              RunDependencies(g, k, r, v.dependencies, p, members), op);
  }

  lemma AmongLast(a: Outcome, b: Outcome, c: Outcome, d: Outcome, op: Addition)
    ensures op in Then(a, Then(Then(b, c), d)).patch <==>
      op in a.patch || op in b.patch || op in c.patch || op in d.patch
  {
  }

  /** A pattern with this schema matches the name. */
  ghost predicate ByPattern(k: Checks, patterns: seq<Property>, name: string, s: Id) {
    exists i | 0 <= i < |patterns| :: patterns[i].schema == s && k.matches(patterns[i].name, name)
  }

  /** What a member adds by a pattern, or as an additional property. */
  lemma MemberAdds(g: Graph, k: Checks, n: Id, p: Pointer, members: seq<Member>, h: nat, s: Id, op: Addition)
    requires Evaluable(g) && n < |g| && s < |g| && g[n].TypeSchema? && g[n].table.objectType.Some? && h < |members|
    requires Adds(g, k, s, p + [members[h].key], members[h].value, op)
    requires var v := g[n].table.objectType.value;
      || ByPattern(k, v.patternProperties, members[h].key, s)
      || (v.additionalProperties == Some(s) && !Meaning.Claimed(k, v, members[h].key))
    ensures Adds(g, k, n, p, Object(members), op)
  {
    NodeParts(g, n);
    var v, m := g[n].table.objectType.value, members[h];
    if ByPattern(k, v.patternProperties, m.key, s) {
      var i :| 0 <= i < |v.patternProperties| && v.patternProperties[i].schema == s
          && k.matches(v.patternProperties[i].name, m.key);
      InPatterns(g, k, v.patternProperties, p, m, i, op);
    } else {
      assert Matched(k, v, m.key) <==> Meaning.Claimed(k, v, m.key);
      assert op in RunAdditional(g, k, v, p, members, m).patch;
    }
    assert op in RunMember(g, k, v, p, members, m).patch;
    MembersPatch(g, k, v, p, members, 0, h, op);
    ObjectAdds(g, k, n, p, members, op);
  }

  lemma {:induction false} InPatterns(g: Graph, k: Checks, patterns: seq<Property>, p: Pointer, m: Member, i: nat,
        op: Addition)
    requires Evaluable(g) && PropertiesWithin(g, patterns) && i < |patterns| && k.matches(patterns[i].name, m.key)
    requires Adds(g, k, patterns[i].schema, p + [m.key], m.value, op)
    ensures op in RunPatterns(g, k, patterns, p, m).patch
    decreases i
  {
    if i > 0 { InPatterns(g, k, patterns[1..], p, m, i - 1, op); }
  }

  /** What the schema of a dependency adds for the object, below the property. */
  lemma DependencyAdds(g: Graph, k: Checks, n: Id, p: Pointer, members: seq<Member>, i: nat, op: Addition)
    requires Evaluable(g) && n < |g| && g[n].TypeSchema? && g[n].table.objectType.Some?
    requires var d := g[n].table.objectType.value.dependencies;
      && i < |d| && Has(members, d[i].name) && d[i].requirement.Schema? && d[i].requirement.schema < |g|
      && Adds(g, k, d[i].requirement.schema, p + [d[i].name], Object(members), op)
    ensures Adds(g, k, n, p, Object(members), op)
  {
    NodeParts(g, n);
    InDependencies(g, k, Rank(g, n), g[n].table.objectType.value.dependencies, p, members, i, op);
    ObjectAdds(g, k, n, p, members, op);
  }

  lemma {:induction false} InDependencies(g: Graph, k: Checks, r: nat, d: seq<Dependency>, p: Pointer,
        members: seq<Member>, i: nat, op: Addition)
    requires Evaluable(g) && DependenciesBelow(g, r, d) && i < |d| && Has(members, d[i].name)
    requires d[i].requirement.Schema? && d[i].requirement.schema < |g|
    requires Adds(g, k, d[i].requirement.schema, p + [d[i].name], Object(members), op)
    ensures op in RunDependencies(g, k, r, d, p, members).patch
    decreases i
  {
    if i > 0 { InDependencies(g, k, r, d[1..], p, members, i - 1, op); }
  }

  /** Every element adds what it adds at its own place, when there is one schema for all. */
  lemma {:induction false} ElementAdds(g: Graph, k: Checks, n: Id, p: Pointer, items: seq<Json>, h: nat, op: Addition)
    requires Evaluable(g) && n < |g| && g[n].TypeSchema? && g[n].table.arrayType.Some? && h < |items|
    requires var v := g[n].table.arrayType.value;
      v.itemsSchema.Some? && v.itemsSchema.value < |g|
      && Adds(g, k, v.itemsSchema.value, p + [Decimal(h)], items[h], op)
    ensures Adds(g, k, n, p, Array(items), op)
  {
    NodeParts(g, n);
    var v := g[n].table.arrayType.value;
    InItems(g, k, v.itemsSchema.value, p, items, 0, h, op);
    ArrayAdds(g, k, n, p, items, op);
  }

  lemma {:induction false} ArrayAdds(g: Graph, k: Checks, n: Id, p: Pointer, items: seq<Json>, op: Addition)
    requires Evaluable(g) && n < |g| && g[n].TypeSchema? && NodeOk(g, n) && g[n].table.arrayType.Some?
    requires op in RunElements(g, k, g[n].table.arrayType.value, p, items).patch
    ensures Adds(g, k, n, p, Array(items), op)
  {
    var rest := TablePatch(g, k, n, p, Array(items));
    assert op in RunTable(g, k, Rank(g, n), g[n].table, p, Array(items)).patch;
  }

  lemma {:induction false} InItems(g: Graph, k: Checks, s: Id, p: Pointer, items: seq<Json>, from: nat, h: nat,
        op: Addition)
    requires Evaluable(g) && s < |g| && from <= h < |items| && Adds(g, k, s, p + [Decimal(h)], items[h], op)
    ensures op in RunItems(g, k, s, p, items, from).patch
    decreases h - from
  {
    if from < h { InItems(g, k, s, p, items, from + 1, h, op); }
  }

  /** `contains` keeps what every element adds up to the first that fits. */
  lemma ContainsAdds(g: Graph, k: Checks, n: Id, p: Pointer, items: seq<Json>, h: nat, op: Addition)
    requires Evaluable(g) && n < |g| && g[n].TypeSchema? && g[n].table.arrayType.Some? && h < |items|
    requires var v := g[n].table.arrayType.value;
      && v.contains.Some? && v.contains.value < |g| && Adds(g, k, v.contains.value, p, items[h], op)
      && forall i | 0 <= i < h :: InVain(g, k, v.contains.value, p, items[i])
    ensures Adds(g, k, n, p, Array(items), op)
  {
    NodeParts(g, n);
    var v := g[n].table.arrayType.value;
    InContains(g, k, v.contains.value, p, items, 0, h, op);
    ArrayAdds(g, k, n, p, items, op);
  }

  ghost predicate InVain(g: Graph, k: Checks, s: Id, p: Pointer, j: Json)
    requires Evaluable(g) && s < |g|
  {
    Run(g, k, s, p, j).errors != []
  }

  lemma {:induction false} InContains(g: Graph, k: Checks, s: Id, p: Pointer, items: seq<Json>, from: nat, h: nat,
        op: Addition)
    requires Evaluable(g) && s < |g| && from <= h < |items| && Adds(g, k, s, p, items[h], op)
    requires forall i | from <= i < h :: InVain(g, k, s, p, items[i])
    ensures op in RunContains(g, k, s, p, items, from).patch
    decreases h - from
  {
    if from < h {
      InContains(g, k, s, p, items, from + 1, h, op);
      ContainsGoesOn(g, k, s, p, items, from, op);
    } else {
      ContainsTries(g, k, s, p, items, from, op);
    }
  }

  lemma {:induction false} ContainsGoesOn(g: Graph, k: Checks, s: Id, p: Pointer, items: seq<Json>, from: nat,
        op: Addition)
    requires Evaluable(g) && s < |g| && from < |items| && InVain(g, k, s, p, items[from])
    requires op in RunContains(g, k, s, p, items, from + 1).patch
    ensures op in RunContains(g, k, s, p, items, from).patch
  {
  }

  lemma {:induction false} ContainsTries(g: Graph, k: Checks, s: Id, p: Pointer, items: seq<Json>, h: nat, op: Addition)
    requires Evaluable(g) && s < |g| && h < |items| && Adds(g, k, s, p, items[h], op)
    ensures op in RunContains(g, k, s, p, items, h).patch
  {
  }
}
