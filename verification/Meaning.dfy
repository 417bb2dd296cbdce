/** The meaning of a compiled schema, stated with quantifiers over sub-schemas, members and
    elements, and the theorem that validation is silent exactly on the instances it admits. */

module Meaning {
  import opened Wrappers
  import opened Json
  import opened SchemaGraph
  import opened Evaluation

  ghost predicate Same(a: Json, b: Json) { Normal(a) == Normal(b) }

  ghost predicate PropertiesAreMaps(g: Graph) {
    forall n {:trigger ListsEachNameOnce(g[n])} | 0 <= n < |g| :: ListsEachNameOnce(g[n])
  }

  ghost predicate NumberSat(k: Checks, b: Bounds, x: real) {
    && (b.multipleOf.Some? && x != 0.0 ==> !k.violatesMultipleOf(x, b.multipleOf.value))
    && (b.maximum.Some? ==> x < b.maximum.value || (x == b.maximum.value && !b.exclusiveMaximum))
    && (b.minimum.Some? ==> b.minimum.value < x || (x == b.minimum.value && !b.exclusiveMinimum))
  }

  ghost predicate StringSat(k: Checks, v: StringRules, s: string) {
    && (v.minLength.Some? ==> v.minLength.value <= CodePoints(s))
    && (v.maxLength.Some? ==> CodePoints(s) <= v.maxLength.value)
    && (v.content.Some? ==> k.contentError(v.content.value.0, v.content.value.1, s).None?)
    && (v.pattern.Some? ==> k.matches(v.pattern.value, s))
    && (v.format.Some? ==> k.formatError(v.format.value, s).None?)
  }

  ghost predicate Sat(g: Graph, k: Checks, n: Id, j: Json)
    requires Evaluable(g) && n < |g|
    decreases Size(j), Rank(g, n), 2, 0
  {
    NodeParts(g, n);
    match g[n]
    case BooleanSchema(allows) => allows
    case Reference(_, _, target) => target.Some? && Sat(g, k, target.value, j)
    case TypeSchema(_, table, enumeration, constant, logic, i, t, e) =>
      && TableSat(g, k, Rank(g, n), table, j)
      && (enumeration.Some? ==> Listed(enumeration.value, j))
      && (constant.Some? ==> Same(constant.value, j))
      && LogicsSat(g, k, Rank(g, n), logic, j)
      && IfSat(g, k, Rank(g, n), i, t, e, j)
  }

  ghost predicate Listed(values: seq<Json>, j: Json) {
    exists h | 0 <= h < |values| :: Same(values[h], j)
  }

  ghost predicate LogicsSat(g: Graph, k: Checks, r: nat, logic: seq<Logic>, j: Json)
    requires Evaluable(g) && AllLogicBelow(g, r, logic)
    decreases Size(j), r, 1, 1
  {
    forall l | 0 <= l < |logic| :: LogicSat(g, k, r, logic[l], j)
  }

  ghost predicate IfSat(g: Graph, k: Checks, r: nat, i: Option<Id>, t: Option<Id>, e: Option<Id>, j: Json)
    requires Evaluable(g) && OptionBelow(g, r, i) && OptionBelow(g, r, t) && OptionBelow(g, r, e)
    decreases Size(j), r, 1, 0
  {
    i.Some? ==> if Sat(g, k, i.value, j) then t.Some? ==> Sat(g, k, t.value, j) else e.Some? ==> Sat(g, k, e.value, j)
  }

  ghost predicate TableSat(g: Graph, k: Checks, r: nat, table: TypeTable, j: Json)
    requires Evaluable(g) && TableOk(g, r, table)
    decreases Size(j), r, 1, 1
  {
    match j
    case Null => table.nullType
    case Boolean(_) => table.booleanType
    case Integer(x) => table.integerType.Some? && NumberSat(k, table.integerType.value, x as real)
    case Unsigned(x) => table.unsignedType.Some? && NumberSat(k, table.unsignedType.value, x as real)
    case Float(x) => table.floatType.Some? && NumberSat(k, table.floatType.value, x)
    case String(s) => table.stringType.Some? && StringSat(k, table.stringType.value, s)
    case Array(items) => table.arrayType.Some? && ArraySat(g, k, table.arrayType.value, items)
    case Object(members) => table.objectType.Some? && ObjectSat(g, k, r, table.objectType.value, members)
  }

  ghost predicate LogicSat(g: Graph, k: Checks, r: nat, logic: Logic, j: Json)
    requires Evaluable(g) && LogicBelow(g, r, logic)
    decreases Size(j), r, 1, 0
  {
    match logic
    case Not(s) => !Sat(g, k, s, j)
    case Combine(c, ss) => Combined(c, Hits(g, k, r, ss, j))
  }

  /** Which of the sub-schemas admit the instance. */
  ghost function Hits(g: Graph, k: Checks, r: nat, ss: seq<Id>, j: Json): (hits: seq<bool>)
    requires Evaluable(g) && AllBelow(g, r, ss)
    ensures |hits| == |ss| && forall i | 0 <= i < |ss| :: hits[i] == Sat(g, k, ss[i], j)
    decreases Size(j), r, 0, 0
  {
    seq(|ss|, i requires 0 <= i < |ss| => Sat(g, k, ss[i], j))
  }

  /** All, some or exactly one; an empty `allOf` admits nothing either. */
  ghost predicate Combined(c: Combination, hits: seq<bool>) {
    match c
    case AllOf => hits != [] && forall i | 0 <= i < |hits| :: hits[i]
    case AnyOf => exists i | 0 <= i < |hits| :: hits[i]
    case OneOf => exists i | 0 <= i < |hits| :: hits[i] && forall h | 0 <= h < |hits| && h != i :: !hits[h]
  }

  ghost predicate HasAll(members: seq<Member>, names: seq<string>) {
    forall i | 0 <= i < |names| :: Has(members, names[i])
  }

  ghost predicate ObjectSat(g: Graph, k: Checks, r: nat, v: ObjectRules, members: seq<Member>)
    requires Evaluable(g) && ObjectWithin(g, v) && DependenciesBelow(g, r, v.dependencies)
    decreases Size(Object(members)), r, 1, 0
  {
    && (v.maxProperties.Some? ==> |members| <= v.maxProperties.value)
    && (v.minProperties.Some? ==> v.minProperties.value <= |members|)
    && HasAll(members, v.required)
    && MembersSat(g, k, v, members, 0)
    && DefaultsExist(g, v.properties, members)
    && (forall i | 0 <= i < |v.dependencies| && Has(members, v.dependencies[i].name) ::
          RequirementSat(g, k, r, v.dependencies[i].requirement, members))
  }

  ghost predicate MembersSat(g: Graph, k: Checks, v: ObjectRules, members: seq<Member>, from: nat)
    requires Evaluable(g) && ObjectWithin(g, v)
    decreases Size(Object(members)), 0, 0, 1
  {
    forall i | from <= i < |members| :: MemberSat(g, k, v, members, members[i])
  }

  /** No absent property leads to a dangling reference when its default is asked for. */
  ghost predicate DefaultsExist(g: Graph, properties: seq<Property>, members: seq<Member>)
    requires Evaluable(g) && PropertiesWithin(g, properties)
  {
    forall i | 0 <= i < |properties| && !Has(members, properties[i].name) ::
      DefaultValue(g, properties[i].schema).Value?
  }

  ghost predicate RequirementSat(g: Graph, k: Checks, r: nat, q: Requirement, members: seq<Member>)
    requires Evaluable(g) && (q.Schema? ==> Below(g, r, q.schema))
    decreases Size(Object(members)), r, 0, 0
  {
    match q
    case Names(names) => HasAll(members, names)
    case Schema(s) => Sat(g, k, s, Object(members))
  }

  /** A member meets the schema listed under its name and of every pattern its name matches,
      or else the schema for additional properties. */
  ghost predicate MemberSat(g: Graph, k: Checks, v: ObjectRules, members: seq<Member>, m: Member)
    requires Evaluable(g) && ObjectWithin(g, v)
    requires Size(m.value) + 1 < Size(Object(members))
    decreases Size(m.value) + 1, 0, 0, 0
  {
    && (v.propertyNames.Some? ==> Sat(g, k, v.propertyNames.value, String(m.key)))
    && (forall i | 0 <= i < |v.properties| && v.properties[i].name == m.key ::
      Sat(g, k, v.properties[i].schema, m.value))
    && (forall i | 0 <= i < |v.patternProperties| && k.matches(v.patternProperties[i].name, m.key) ::
          Sat(g, k, v.patternProperties[i].schema, m.value))
    && (v.additionalProperties.Some? && !Claimed(k, v, m.key) ==> Sat(g, k, v.additionalProperties.value, m.value))
  }

  ghost predicate Claimed(k: Checks, v: ObjectRules, name: string) {
    || (exists i | 0 <= i < |v.properties| :: v.properties[i].name == name)
    || (exists i | 0 <= i < |v.patternProperties| :: k.matches(v.patternProperties[i].name, name))
  }

  ghost predicate ArraySat(g: Graph, k: Checks, v: ArrayRules, items: seq<Json>)
    requires Evaluable(g) && ArrayWithin(g, v)
    decreases Size(Array(items)), 0, 0, 1
  {
    && (v.maxItems.Some? ==> |items| <= v.maxItems.value)
    && (v.minItems.Some? ==> v.minItems.value <= |items|)
    && (v.uniqueItems ==> Distinct(items, 0))
    && (v.itemsSchema.Some? ==> ItemsSat(g, k, v.itemsSchema.value, items, 0))
    && (v.itemsSchema.None? ==> TupleSat(g, k, v, items, 0))
    && (v.contains.Some? ==> SomeItemSat(g, k, v.contains.value, items, 0))
  }

  ghost predicate Distinct(items: seq<Json>, from: nat) {
    forall i, h | from <= i < h < |items| :: !Same(items[i], items[h])
  }

  ghost predicate ItemsSat(g: Graph, k: Checks, s: Id, items: seq<Json>, from: nat)
    requires Evaluable(g) && s < |g|
    decreases Size(Array(items)), 0, 0, 0
  {
    forall i | from <= i < |items| :: Sat(g, k, s, items[i])
  }

  ghost predicate TupleSat(g: Graph, k: Checks, v: ArrayRules, items: seq<Json>, from: nat)
    requires Evaluable(g) && ArrayWithin(g, v)
    decreases Size(Array(items)), 0, 0, 0
  {
    forall i | from <= i < |items| && TupleSchema(v, i).Some? :: Sat(g, k, TupleSchema(v, i).value, items[i])
  }

  ghost predicate SomeItemSat(g: Graph, k: Checks, s: Id, items: seq<Json>, from: nat)
    requires Evaluable(g) && s < |g|
    decreases Size(Array(items)), 0, 0, 0
  {
    exists i | from <= i < |items| :: Sat(g, k, s, items[i])
  }

  // ---------------------------------------------------------------- the verdict theorem

  /** Validation reports nothing exactly when the schema admits the instance. */
  lemma {:induction false} Verdict(g: Graph, k: Checks, n: Id, p: Pointer, j: Json)
    requires Evaluable(g) && PropertiesAreMaps(g) && n < |g|
    ensures Run(g, k, n, p, j).errors == [] <==> Sat(g, k, n, j)
    decreases Size(j), Rank(g, n), 2, 0
  {
    NodeParts(g, n);
    match g[n]
    case BooleanSchema(_) =>
    case Reference(_, _, target) => if target.Some? { Verdict(g, k, target.value, p, j); }
    case TypeSchema(_, _, _, _, _, _, _, _) => NodeVerdict(g, k, n, p, j);
  }

  lemma {:induction false} NodeVerdict(g: Graph, k: Checks, n: Id, p: Pointer, j: Json)
    requires Evaluable(g) && PropertiesAreMaps(g) && n < |g| && g[n].TypeSchema? && NodeOk(g, n)
    ensures Run(g, k, n, p, j).errors == [] <==> Sat(g, k, n, j)
    decreases Size(j), Rank(g, n), 1, |g[n].logic| + 3
  {
    var node, r := g[n], Rank(g, n);
    assert ListsEachNameOnce(g[n]);
    TableVerdict(g, k, r, node.table, p, j);
    ValuesVerdict(node.enumeration, node.constant, p, j);
    LogicVerdict(g, k, r, node.logic, p, j);
    IfVerdict(g, k, r, node.ifSchema, node.thenSchema, node.elseSchema, p, j);
  }

  lemma {:induction false} IfVerdict(g: Graph, k: Checks, r: nat, i: Option<Id>, t: Option<Id>, e: Option<Id>,
        p: Pointer, j: Json)
    requires Evaluable(g) && PropertiesAreMaps(g) && OptionBelow(g, r, i) && OptionBelow(g, r, t)
    requires OptionBelow(g, r, e)
    ensures RunIf(g, k, r, i, t, e, p, j).errors == [] <==> IfSat(g, k, r, i, t, e, j)
    decreases Size(j), r, 1, 0
  {
    if i.Some? {
      Verdict(g, k, i.value, p, j);
      if t.Some? { Verdict(g, k, t.value, p, j); }
      if e.Some? { Verdict(g, k, e.value, p, j); }
    }
  }

  lemma ValuesVerdict(enumeration: Option<seq<Json>>, constant: Option<Json>, p: Pointer, j: Json)
    ensures RunValues(enumeration, constant, p, j).errors == [] <==>
            (enumeration.Some? ==> Listed(enumeration.value, j)) && (constant.Some? ==> Same(constant.value, j))
  {
    if enumeration.Some? { EnumVerdict(enumeration.value, j); }
    if constant.Some? { EqualIffSameNormal(constant.value, j); }
  }

  lemma {:induction false} EnumVerdict(values: seq<Json>, j: Json)
    ensures FindEqual(values, j) == |values| <==> !Listed(values, j)
  {
    forall h | 0 <= h < |values| ensures JsonEq(j, values[h]) <==> Same(values[h], j) {
      EqualIffSameNormal(j, values[h]);
    }
  }

  lemma {:induction false} TableVerdict(g: Graph, k: Checks, r: nat, table: TypeTable, p: Pointer, j: Json)
    requires Evaluable(g) && PropertiesAreMaps(g) && TableOk(g, r, table)
    requires table.objectType.Some? ==> DistinctNames(table.objectType.value.properties)
    ensures RunTable(g, k, r, table, p, j).errors == [] <==> TableSat(g, k, r, table, j)
    decreases Size(j), r, 1, 1
  {
    match j
    case Array(items) => if table.arrayType.Some? { ArrayVerdict(g, k, table.arrayType.value, p, items); }
    case Object(members) => if table.objectType.Some? { ObjectVerdict(g, k, r, table.objectType.value, p, members); }
    case _ =>
  }

  lemma {:induction false} LogicVerdict(g: Graph, k: Checks, r: nat, logic: seq<Logic>, p: Pointer, j: Json)
    requires Evaluable(g) && PropertiesAreMaps(g) && AllLogicBelow(g, r, logic)
    ensures RunLogic(g, k, r, logic, p, j).errors == [] <==> LogicsSat(g, k, r, logic, j)
    decreases Size(j), r, 1, |logic|
  {
    if logic != [] {
      var rest := logic[1..];
      assert forall l | 0 <= l < |rest| :: rest[l] == logic[l + 1];
      assert LogicBelow(g, r, logic[0]);
      match logic[0] {
        case Not(s) => Verdict(g, k, s, p, j);
        case Combine(c, ss) => CombinationVerdict(g, k, r, c, ss, p, j, 0);
      }
      LogicVerdict(g, k, r, rest, p, j);
      LogicsFirst(g, k, r, logic, j);
    }
  }

  lemma {:induction false} LogicsFirst(g: Graph, k: Checks, r: nat, logic: seq<Logic>, j: Json)
    requires Evaluable(g) && AllLogicBelow(g, r, logic) && logic != []
    ensures AllLogicBelow(g, r, logic[1..])
    ensures LogicsSat(g, k, r, logic, j) <==> LogicSat(g, k, r, logic[0], j) && LogicsSat(g, k, r, logic[1..], j)
  {
    var rest := logic[1..];
    assert forall l | 0 <= l < |rest| :: rest[l] == logic[l + 1];
    assert forall l | 0 < l < |logic| :: logic[l] == rest[l - 1];
  }

  /** What is left to check of a combination once `count` sub-schemas have succeeded. */
  ghost predicate CombinedLeft(c: Combination, hits: seq<bool>, count: nat) {
    match c
    case AllOf => (count > 0 || hits != []) && forall i | 0 <= i < |hits| :: hits[i]
    case AnyOf => count > 0 || exists i | 0 <= i < |hits| :: hits[i]
    case OneOf => if count == 0 then Combined(OneOf, hits) else count == 1 && forall i | 0 <= i < |hits| :: !hits[i]
  }

  lemma CombinedStep(c: Combination, hits: seq<bool>, count: nat)
    requires hits != []
    requires c.AnyOf? ==> count == 0
    ensures CombinedLeft(c, hits, count) <==>
      match c
      case AllOf => hits[0] && CombinedLeft(c, hits[1..], count + 1)
      case AnyOf => hits[0] || CombinedLeft(c, hits[1..], count)
      case OneOf => CombinedLeft(c, hits[1..], if hits[0] then count + 1 else count)
  {
    var rest := hits[1..];
    assert forall i | 0 < i < |hits| :: hits[i] == rest[i - 1];
    assert forall i | 0 <= i < |rest| :: rest[i] == hits[i + 1];
  }

  lemma {:induction false} CombinationVerdict(g: Graph, k: Checks, r: nat, c: Combination, ss: seq<Id>, p: Pointer,
        j: Json, count: nat)
    requires Evaluable(g) && PropertiesAreMaps(g) && AllBelow(g, r, ss)
    requires c.AnyOf? ==> count == 0
    requires c.OneOf? ==> count <= 1
    ensures RunCombination(g, k, r, c, ss, p, j, count).errors == [] <==> CombinedLeft(c, Hits(g, k, r, ss, j), count)
    decreases Size(j), r, 0, |ss|
  {
    if ss != [] {
      var rest, hits := ss[1..], Hits(g, k, r, ss, j);
      assert AllBelow(g, r, rest);
      assert Hits(g, k, r, rest, j) == hits[1..];
      Verdict(g, k, ss[0], p, j);
      CombinedStep(c, hits, count);
      var sub := Run(g, k, ss[0], p, j);
      var count' := if hits[0] then count + 1 else count;
      var complete := Completion(c, sub.errors, count', p, j);
      if complete.Some? {
        assert RunCombination(g, k, r, c, ss, p, j, count) == Then(Outcome([], sub.patch), complete.value);
      } else {
        CombinationVerdict(g, k, r, c, rest, p, j, count');
        assert RunCombination(g, k, r, c, ss, p, j, count)
          == Then(Outcome([], sub.patch), RunCombination(g, k, r, c, rest, p, j, count'));
      }
    }
  }

  lemma {:induction false} RequiredVerdict(names: seq<string>, dependency: bool, p: Pointer, members: seq<Member>)
    ensures RunRequired(names, dependency, p, members).errors == [] <==> HasAll(members, names)
  {
    if names != [] {
      RequiredVerdict(names[1..], dependency, p, members);
      assert forall i | 0 < i < |names| :: names[i] == names[1..][i - 1];
    }
  }

  lemma {:induction false} DefaultsVerdict(g: Graph, properties: seq<Property>, p: Pointer, members: seq<Member>)
    requires Evaluable(g) && PropertiesWithin(g, properties)
    ensures RunDefaults(g, properties, p, members).errors == [] <==> DefaultsExist(g, properties, members)
  {
    if properties != [] {
      var rest := properties[1..];
      DefaultsVerdict(g, rest, p, members);
      assert forall i | 0 < i < |properties| :: properties[i] == rest[i - 1];
      assert forall i | 0 <= i < |rest| :: rest[i] == properties[i + 1];
    }
  }

  lemma {:induction false} ObjectVerdict(g: Graph, k: Checks, r: nat, v: ObjectRules, p: Pointer, members: seq<Member>)
    requires Evaluable(g) && PropertiesAreMaps(g) && ObjectWithin(g, v) && DependenciesBelow(g, r, v.dependencies)
    requires DistinctNames(v.properties)
    ensures RunObject(g, k, r, v, p, members).errors == [] <==> ObjectSat(g, k, r, v, members)
    decreases Size(Object(members)), r, 1, 0
  {
    RequiredVerdict(v.required, false, p, members);
    MembersVerdict(g, k, v, p, members, 0);
    DefaultsVerdict(g, v.properties, p, members);
    DependenciesVerdict(g, k, r, v.dependencies, p, members);
  }

  lemma {:induction false} MembersVerdict(g: Graph, k: Checks, v: ObjectRules, p: Pointer, members: seq<Member>, i: nat)
    requires Evaluable(g) && PropertiesAreMaps(g) && ObjectWithin(g, v) && DistinctNames(v.properties) && i <= |members|
    ensures RunMembers(g, k, v, p, members, i).errors == [] <==> MembersSat(g, k, v, members, i)
    decreases Size(Object(members)), 0, 0, |members| - i
  {
    if i < |members| {
      MembersFirst(g, k, v, members, i);
      MembersNext(g, k, v, p, members, i);
      MembersVerdict(g, k, v, p, members, i + 1);
      MemberVerdict(g, k, v, p, members, members[i]);
    }
  }

  lemma MembersFirst(g: Graph, k: Checks, v: ObjectRules, members: seq<Member>, i: nat)
    requires Evaluable(g) && ObjectWithin(g, v) && i < |members|
    ensures MembersSat(g, k, v, members, i) <==>
      MemberSat(g, k, v, members, members[i]) && MembersSat(g, k, v, members, i + 1)
  {
  }

  lemma MembersNext(g: Graph, k: Checks, v: ObjectRules, p: Pointer, members: seq<Member>, i: nat)
    requires Evaluable(g) && ObjectWithin(g, v) && i < |members|
    ensures RunMembers(g, k, v, p, members, i).errors == [] <==>
      RunMember(g, k, v, p, members, members[i]).errors == [] && RunMembers(g, k, v, p, members, i + 1).errors == []
  {
  }

  lemma {:induction false} MemberVerdict(g: Graph, k: Checks, v: ObjectRules, p: Pointer, members: seq<Member>,
        m: Member)
    requires Evaluable(g) && PropertiesAreMaps(g) && ObjectWithin(g, v) && DistinctNames(v.properties)
    requires Size(m.value) + 1 < Size(Object(members))
    ensures RunMember(g, k, v, p, members, m).errors == [] <==> MemberSat(g, k, v, members, m)
    decreases Size(m.value) + 1, 0, 0, 0
  {
    if v.propertyNames.Some? { Verdict(g, k, v.propertyNames.value, p, String(m.key)); }
    ListedVerdict(g, k, v, p, m);
    PatternsVerdict(g, k, v.patternProperties, p, m);
    assert Matched(k, v, m.key) <==> Claimed(k, v, m.key);
    if v.additionalProperties.Some? {
      Verdict(g, k, v.additionalProperties.value, p + [m.key], m.value);
    }
  }

  lemma {:induction false} ListedVerdict(g: Graph, k: Checks, v: ObjectRules, p: Pointer, m: Member)
    requires Evaluable(g) && PropertiesAreMaps(g) && PropertiesWithin(g, v.properties) && DistinctNames(v.properties)
    ensures RunListed(g, k, v, p, m).errors == [] <==>
            forall i | 0 <= i < |v.properties| && v.properties[i].name == m.key ::
              Sat(g, k, v.properties[i].schema, m.value)
    decreases Size(m.value), Top(g), 0, 0
  {
    var i := FindProperty(v.properties, m.key);
    if i < |v.properties| {
      TopIsAbove(g, v.properties[i].schema);
      Verdict(g, k, v.properties[i].schema, p + [m.key], m.value);
      assert forall h | 0 <= h < |v.properties| && v.properties[h].name == m.key :: h == i;
    }
  }

  ghost predicate PatternsSat(g: Graph, k: Checks, patterns: seq<Property>, m: Member)
    requires Evaluable(g) && PropertiesWithin(g, patterns)
  {
    forall i | 0 <= i < |patterns| && k.matches(patterns[i].name, m.key) :: Sat(g, k, patterns[i].schema, m.value)
  }

  lemma {:induction false} PatternsFirst(g: Graph, k: Checks, patterns: seq<Property>, m: Member)
    requires Evaluable(g) && PropertiesWithin(g, patterns) && patterns != []
    ensures PropertiesWithin(g, patterns[1..])
    ensures PatternsSat(g, k, patterns, m) <==>
      && (k.matches(patterns[0].name, m.key) ==> Sat(g, k, patterns[0].schema, m.value))
      && PatternsSat(g, k, patterns[1..], m)
  {
    var rest := patterns[1..];
    assert forall i | 0 < i < |patterns| :: patterns[i] == rest[i - 1];
    assert forall i | 0 <= i < |rest| :: rest[i] == patterns[i + 1];
  }

  lemma {:induction false} PatternsVerdict(g: Graph, k: Checks, patterns: seq<Property>, p: Pointer, m: Member)
    requires Evaluable(g) && PropertiesAreMaps(g) && PropertiesWithin(g, patterns)
    ensures RunPatterns(g, k, patterns, p, m).errors == [] <==> PatternsSat(g, k, patterns, m)
    decreases Size(m.value), Top(g), 0, |patterns|
  {
    if patterns != [] {
      TopIsAbove(g, patterns[0].schema);
      Verdict(g, k, patterns[0].schema, p + [m.key], m.value);
      PatternsVerdict(g, k, patterns[1..], p, m);
      PatternsFirst(g, k, patterns, m);
    }
  }

  lemma {:induction false} DependenciesVerdict(g: Graph, k: Checks, r: nat, d: seq<Dependency>, p: Pointer,
        members: seq<Member>)
    requires Evaluable(g) && PropertiesAreMaps(g) && DependenciesBelow(g, r, d)
    ensures RunDependencies(g, k, r, d, p, members).errors == [] <==>
            forall i | 0 <= i < |d| && Has(members, d[i].name) :: RequirementSat(g, k, r, d[i].requirement, members)
    decreases Size(Object(members)), r, 0, |d|
  {
    if d != [] {
      var rest := d[1..];
      match d[0].requirement {
        case Names(names) => RequiredVerdict(names, true, p + [d[0].name], members);
        case Schema(s) => Verdict(g, k, s, p + [d[0].name], Object(members));
      }
      DependenciesVerdict(g, k, r, rest, p, members);
      assert forall i | 0 < i < |d| :: d[i] == rest[i - 1];
      assert forall i | 0 <= i < |rest| :: rest[i] == d[i + 1];
    }
  }

  lemma {:induction false} UniqueVerdict(p: Pointer, items: seq<Json>, i: nat)
    ensures RunUnique(p, items, i).errors == [] <==> Distinct(items, i)
    decreases |items| - i
  {
    if i < |items| {
      UniqueVerdict(p, items, i + 1);
      forall h | i < h < |items|
        ensures items[h] == items[i + 1..][h - i - 1] && (JsonEq(items[i], items[h]) <==> Same(items[i], items[h]))
      {
        EqualIffSameNormal(items[i], items[h]);
      }
    }
  }

  lemma CountsVerdict(v: ArrayRules, p: Pointer, items: seq<Json>)
    ensures RunCounts(v, p, items).errors == [] <==>
      && (v.maxItems.Some? ==> |items| <= v.maxItems.value)
      && (v.minItems.Some? ==> v.minItems.value <= |items|)
      && (v.uniqueItems ==> Distinct(items, 0))
  {
    UniqueVerdict(p, items, 0);
  }

  lemma {:induction false} ArrayVerdict(g: Graph, k: Checks, v: ArrayRules, p: Pointer, items: seq<Json>)
    requires Evaluable(g) && PropertiesAreMaps(g) && ArrayWithin(g, v)
    ensures RunArray(g, k, v, p, items).errors == [] <==> ArraySat(g, k, v, items)
    decreases Size(Array(items)), 0, 0, |items| + 1
  {
    CountsVerdict(v, p, items);
    if v.itemsSchema.Some? {
      ItemsVerdict(g, k, v.itemsSchema.value, p, items, 0);
    } else {
      TupleVerdict(g, k, v, p, items, 0);
    }
    if v.contains.Some? { ContainsVerdict(g, k, v.contains.value, p, items, 0); }
  }

  lemma {:induction false} ItemsVerdict(g: Graph, k: Checks, s: Id, p: Pointer, items: seq<Json>, i: nat)
    requires Evaluable(g) && PropertiesAreMaps(g) && s < |g| && i <= |items|
    ensures RunItems(g, k, s, p, items, i).errors == [] <==> ItemsSat(g, k, s, items, i)
    decreases Size(Array(items)), 0, 0, |items| - i
  {
    if i < |items| {
      Verdict(g, k, s, p + [Decimal(i)], items[i]);
      ItemsVerdict(g, k, s, p, items, i + 1);
    }
  }

  lemma {:induction false} TupleVerdict(g: Graph, k: Checks, v: ArrayRules, p: Pointer, items: seq<Json>, i: nat)
    requires Evaluable(g) && PropertiesAreMaps(g) && ArrayWithin(g, v) && i <= |items|
    ensures RunTuple(g, k, v, p, items, i).errors == [] <==> TupleSat(g, k, v, items, i)
    decreases Size(Array(items)), 0, 0, |items| - i
  {
    if i < |items| && TupleSchema(v, i).Some? {
      Verdict(g, k, TupleSchema(v, i).value, p + [Decimal(0)], items[i]);
      TupleVerdict(g, k, v, p, items, i + 1);
    }
  }

  lemma {:induction false} ContainsVerdict(g: Graph, k: Checks, s: Id, p: Pointer, items: seq<Json>, i: nat)
    requires Evaluable(g) && PropertiesAreMaps(g) && s < |g| && i <= |items|
    ensures RunContains(g, k, s, p, items, i).errors == [] <==> SomeItemSat(g, k, s, items, i)
    decreases Size(Array(items)), 0, 0, |items| - i
  {
    if i < |items| {
      Verdict(g, k, s, p, items[i]);
      ContainsVerdict(g, k, s, p, items, i + 1);
    }
  }
}
