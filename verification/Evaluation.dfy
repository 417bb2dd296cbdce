/** What validating one instance against one schema reports, written as a function: the
    ordered error reports and the ordered default-patch operations. */

module Evaluation {
  import opened Wrappers
  import opened Json
  import opened SchemaGraph

  datatype Message =
    | UnexpectedType | NotInEnum | NotConst | NotNull | FalseSchema
    | Unresolved(id: string)
    | NotSucceeded | NoneSucceeded | SeveralSucceeded | AllOfFailed(inner: Message)
    | TooShort(minLength: nat) | TooLong(maxLength: nat) | PatternMismatch(pattern: string)
    | FormatFailed(what: string) | ContentFailed(what: string)
    | NotMultiple(divisor: real)
    | ReachesMaximum(bound: real) | ExceedsMaximum(bound: real)
    | ReachesMinimum(bound: real) | BelowMinimum(bound: real)
    | TooManyProperties | TooFewProperties | MissingProperty(name: string)
    | MissingDependency(name: string)
    | AdditionalProperty(name: string, inner: Message)
    | TooManyItems | TooFewItems | NotUnique | NotContained
    | NoRootSchema | NoSuchFile(location: string) | NoSuchSchema(uri: string)

  datatype Report = Report(pointer: Pointer, instance: Json, message: Message)
  datatype Addition = Addition(pointer: Pointer, value: Json)

  datatype Outcome = Outcome(errors: seq<Report>, patch: seq<Addition>)

  const Silent := Outcome([], [])

  function Then(a: Outcome, b: Outcome): (o: Outcome)
    ensures o.errors == [] <==> a.errors == [] && b.errors == []
  {
    Outcome(a.errors + b.errors, a.patch + b.patch)
  }

  function Fail(pointer: Pointer, instance: Json, message: Message): Outcome {
    Outcome([Report(pointer, instance, message)], [])
  }

  function FailIf(c: bool, pointer: Pointer, instance: Json, message: Message): Outcome {
    if c then Fail(pointer, instance, message) else Silent
  }

  // ---------------------------------------------------------------- default values

  datatype Default = Value(value: Json) | Dangling(id: string)

  /** References stay inside the graph and no cycle of them stays on one instance. */
  ghost predicate Evaluable(g: Graph) {
    Closed(g) && WellFounded(g)
  }

  /** A reference without a default of its own asks the schema it refers to. */
  function DefaultValue(g: Graph, n: Id): Default
    requires Evaluable(g) && n < |g|
    decreases Rank(g, n)
  {
    match g[n]
    case BooleanSchema(_) => Value(Null)
    case TypeSchema(d, _, _, _, _, _, _, _) => Value(d)
    case Reference(id, d, target) =>
      if !d.Null? then Value(d)
      else if target.None? then Dangling(id)
      else
        assert target.value in SameInstanceIds(g[n]);
        EdgeRank(g, n, target.value);
        DefaultValue(g, target.value)
  }

  // ---------------------------------------------------------------- scalars

  /** Number of bytes that are not UTF-8 continuation bytes. */
  function CodePoints(s: string): nat {
    if s == [] then 0
    else CodePoints(s[..|s| - 1]) + (if 0x80 <= s[|s| - 1] as int % 256 < 0xC0 then 0 else 1)
  }

  function RunString(k: Checks, v: StringRules, p: Pointer, s: string): Outcome {
    Then(RunLengths(v, p, s), RunText(k, v, p, s))
  }

  function RunLengths(v: StringRules, p: Pointer, s: string): Outcome {
    Then(RunMinLength(v, p, s), RunMaxLength(v, p, s))
  }

  function RunText(k: Checks, v: StringRules, p: Pointer, s: string): Outcome {
    Then(Then(RunContent(k, v, p, s), RunPattern(k, v, p, s)), RunFormat(k, v, p, s))
  }

  function RunMinLength(v: StringRules, p: Pointer, s: string): Outcome {
    if v.minLength.None? then Silent
    else FailIf(CodePoints(s) < v.minLength.value, p, String(s), TooShort(v.minLength.value))
  }

  function RunMaxLength(v: StringRules, p: Pointer, s: string): Outcome {
    if v.maxLength.None? then Silent
    else FailIf(CodePoints(s) > v.maxLength.value, p, String(s), TooLong(v.maxLength.value))
  }

  function RunContent(k: Checks, v: StringRules, p: Pointer, s: string): Outcome {
    if v.content.None? then Silent
    else match k.contentError(v.content.value.0, v.content.value.1, s)
      case None => Silent
      case Some(what) => Fail(p, String(s), ContentFailed(what))
  }

  function RunPattern(k: Checks, v: StringRules, p: Pointer, s: string): Outcome {
    if v.pattern.None? then Silent
    else FailIf(!k.matches(v.pattern.value, s), p, String(s), PatternMismatch(v.pattern.value))
  }

  function RunFormat(k: Checks, v: StringRules, p: Pointer, s: string): Outcome {
    if v.format.None? then Silent
    else match k.formatError(v.format.value, s)
      case None => Silent
      case Some(what) => Fail(p, String(s), FormatFailed(what))
  }

  function RunNumber(k: Checks, b: Bounds, p: Pointer, j: Json, x: real): Outcome {
    Then(Then(RunMultiple(k, b, p, j, x), RunMaximum(b, p, j, x)), RunMinimum(b, p, j, x))
  }

  /** Zero is a multiple of everything. */
  function RunMultiple(k: Checks, b: Bounds, p: Pointer, j: Json, x: real): Outcome {
    if b.multipleOf.None? || x == 0.0 then Silent
    else FailIf(k.violatesMultipleOf(x, b.multipleOf.value), p, j, NotMultiple(b.multipleOf.value))
  }

  function RunMaximum(b: Bounds, p: Pointer, j: Json, x: real): Outcome {
    if b.maximum.None? then Silent
    else if b.exclusiveMaximum && x >= b.maximum.value then Fail(p, j, ReachesMaximum(b.maximum.value))
    else FailIf(x > b.maximum.value, p, j, ExceedsMaximum(b.maximum.value))
  }

  function RunMinimum(b: Bounds, p: Pointer, j: Json, x: real): Outcome {
    if b.minimum.None? then Silent
    else if b.exclusiveMinimum && x <= b.minimum.value then Fail(p, j, ReachesMinimum(b.minimum.value))
    else FailIf(x < b.minimum.value, p, j, BelowMinimum(b.minimum.value))
  }

  // ---------------------------------------------------------------- objects and arrays, local checks

  /** One report for each name of the list that the object lacks. */
  function RunRequired(names: seq<string>, dependency: bool, p: Pointer, members: seq<Member>): Outcome {
    if names == [] then Silent
    else Then(
      FailIf(!Has(members, names[0]), p, Object(members),
             if dependency then MissingDependency(names[0]) else MissingProperty(names[0])),
      RunRequired(names[1..], dependency, p, members))
  }

  function FindProperty(properties: seq<Property>, name: string): (i: nat)
    ensures i <= |properties|
    ensures i < |properties| ==> properties[i].name == name
    ensures forall j | 0 <= j < i :: properties[j].name != name
  {
    if properties == [] then 0
    else if properties[0].name == name then 0
    else 1 + FindProperty(properties[1..], name)
  }

  function FindEqual(items: seq<Json>, j: Json): (i: nat)
    ensures i <= |items|
    ensures i < |items| ==> JsonEq(j, items[i])
    ensures forall h | 0 <= h < i :: !JsonEq(j, items[h])
  {
    if items == [] then 0
    else if JsonEq(j, items[0]) then 0
    else 1 + FindEqual(items[1..], j)
  }

  /** One report for each element that equals a later one. */
  function RunUnique(p: Pointer, all: seq<Json>, i: nat): Outcome
    decreases |all| - i
  {
    if i >= |all| then Silent
    else Then(FailIf(FindEqual(all[i + 1..], all[i]) < |all| - i - 1, p, Array(all), NotUnique),
              RunUnique(p, all, i + 1))
  }

  /** Defaults of the properties the object lacks. */
  function RunDefaults(g: Graph, properties: seq<Property>, p: Pointer, members: seq<Member>): Outcome
    requires Evaluable(g) && forall i | 0 <= i < |properties| :: properties[i].schema < |g|
  {
    if properties == [] then Silent
    else Then(RunDefault(g, properties[0], p, members), RunDefaults(g, properties[1..], p, members))
  }

  function RunDefault(g: Graph, property: Property, p: Pointer, members: seq<Member>): Outcome
    requires Evaluable(g) && property.schema < |g|
  {
    if Has(members, property.name) then Silent
    else match DefaultValue(g, property.schema)
      case Dangling(id) => Fail(p, Object(members), Unresolved(id))
      case Value(d) => if d.Null? then Silent else Outcome([], [Addition(p + [property.name], d)])
  }

  // ---------------------------------------------------------------- schemas

  ghost predicate Below(g: Graph, r: nat, n: Id) {
    n < |g| && Rank(g, n) < r
  }

  ghost predicate AllBelow(g: Graph, r: nat, ids: seq<Id>) {
    forall i {:trigger ids[i]} | 0 <= i < |ids| :: Below(g, r, ids[i])
  }

  ghost predicate LogicBelow(g: Graph, r: nat, logic: Logic) {
    match logic
    case Not(s) => Below(g, r, s)
    case Combine(_, ss) => AllBelow(g, r, ss)
  }

  ghost predicate AllLogicBelow(g: Graph, r: nat, logic: seq<Logic>) {
    forall l {:trigger logic[l]} | 0 <= l < |logic| :: LogicBelow(g, r, logic[l])
  }

  ghost predicate DependenciesBelow(g: Graph, r: nat, d: seq<Dependency>) {
    forall i | 0 <= i < |d| && d[i].requirement.Schema? :: Below(g, r, d[i].requirement.schema)
  }

  ghost predicate OptionBelow(g: Graph, r: nat, o: Option<Id>) {
    o.Some? ==> Below(g, r, o.value)
  }

  ghost predicate OptionWithin(g: Graph, o: Option<Id>) {
    o.Some? ==> o.value < |g|
  }

  ghost predicate PropertiesWithin(g: Graph, ps: seq<Property>) {
    forall i | 0 <= i < |ps| :: ps[i].schema < |g|
  }

  ghost predicate ObjectWithin(g: Graph, v: ObjectRules) {
    PropertiesWithin(g, v.properties) && PropertiesWithin(g, v.patternProperties)
    && OptionWithin(g, v.additionalProperties) && OptionWithin(g, v.propertyNames)
  }

  ghost predicate ArrayWithin(g: Graph, v: ArrayRules) {
    OptionWithin(g, v.itemsSchema) && (forall i | 0 <= i < |v.items| :: v.items[i] < |g|)
    && OptionWithin(g, v.additionalItems) && OptionWithin(g, v.contains)
  }

  ghost predicate TableOk(g: Graph, r: nat, table: TypeTable) {
    && (table.objectType.Some? ==> ObjectWithin(g, table.objectType.value))
    && (table.objectType.Some? ==> DependenciesBelow(g, r, table.objectType.value.dependencies))
    && (table.arrayType.Some? ==> ArrayWithin(g, table.arrayType.value))
  }

  /** What the closedness of the graph and its rank say about the parts of one node. */
  ghost predicate NodeOk(g: Graph, n: Id)
    requires n < |g|
  {
    match g[n]
    case BooleanSchema(_) => true
    case Reference(_, _, target) => OptionBelow(g, Rank(g, n), target)
    case TypeSchema(_, table, _, _, logic, i, t, e) =>
      && (forall l | 0 <= l < |logic| :: LogicBelow(g, Rank(g, n), logic[l]))
      && OptionBelow(g, Rank(g, n), i) && OptionBelow(g, Rank(g, n), t) && OptionBelow(g, Rank(g, n), e)
      && TableOk(g, Rank(g, n), table)
  }

  lemma NodeParts(g: Graph, n: Id)
    requires Evaluable(g) && n < |g|
    ensures NodeOk(g, n)
  {
    forall m | m in SameInstanceIds(g[n]) ensures Below(g, Rank(g, n), m) {
      EdgeRank(g, n, m);
    }
    SameInstanceParts(g, g[n], Rank(g, n));
    assert Within(DescendingIds(g[n]), |g|);
    DescendingParts(g, g[n]);
  }

  lemma SameInstanceParts(g: Graph, node: Node, r: nat)
    requires forall m | m in SameInstanceIds(node) :: Below(g, r, m)
    ensures node.Reference? ==> OptionBelow(g, r, node.target)
    ensures node.TypeSchema? ==>
      && AllLogicBelow(g, r, node.logic)
      && OptionBelow(g, r, node.ifSchema) && OptionBelow(g, r, node.thenSchema) && OptionBelow(g, r, node.elseSchema)
      && (node.table.objectType.Some? ==> DependenciesBelow(g, r, node.table.objectType.value.dependencies))
  {
    var ids := SameInstanceIds(node);
    if node.Reference? && node.target.Some? {
      assert node.target.value in ids;
    }
    if node.TypeSchema? {
      forall l | 0 <= l < |node.logic| ensures LogicBelow(g, r, node.logic[l]) {
        var ls := LogicIds(node.logic);
        assert forall m | m in ls :: m in ids;
      }
      assert node.ifSchema.Some? ==> node.ifSchema.value in ids;
      assert node.thenSchema.Some? ==> node.thenSchema.value in ids;
      assert node.elseSchema.Some? ==> node.elseSchema.value in ids;
      if node.table.objectType.Some? {
        var ds := DependencyIds(node.table.objectType.value.dependencies);
        assert forall m | m in ds :: m in ids;
      }
    }
  }

  lemma DescendingParts(g: Graph, node: Node)
    requires Within(DescendingIds(node), |g|)
    ensures node.TypeSchema? && node.table.objectType.Some? ==> ObjectWithin(g, node.table.objectType.value)
    ensures node.TypeSchema? && node.table.arrayType.Some? ==> ArrayWithin(g, node.table.arrayType.value)
  {
    var ids := DescendingIds(node);
    if node.TypeSchema? && node.table.objectType.Some? {
      var o := node.table.objectType.value;
      var ps, qs := PropertyIds(o.properties), PropertyIds(o.patternProperties);
      assert forall m | m in ps :: m in ids;
      assert forall m | m in qs :: m in ids;
      assert o.additionalProperties.Some? ==> o.additionalProperties.value in ids;
      assert o.propertyNames.Some? ==> o.propertyNames.value in ids;
    }
    if node.TypeSchema? && node.table.arrayType.Some? {
      var a := node.table.arrayType.value;
      assert forall i | 0 <= i < |a.items| :: a.items[i] in ArrayIds(a);
      assert forall m | m in ArrayIds(a) :: m in ids;
      assert a.itemsSchema.Some? ==> a.itemsSchema.value in ids;
      assert a.additionalItems.Some? ==> a.additionalItems.value in ids;
      assert a.contains.Some? ==> a.contains.value in ids;
    }
  }

  /** Validation of one instance against schema n. Sub-validations run under their own
      first-error handler where the code gives them one; patch operations are always kept. */
  function Run(g: Graph, k: Checks, n: Id, p: Pointer, j: Json): Outcome
    requires Evaluable(g) && n < |g|
    decreases Size(j), Rank(g, n), 2, 0
  {
    NodeParts(g, n);
    match g[n]
    case BooleanSchema(allows) => FailIf(!allows, p, j, FalseSchema)
    case Reference(id, _, target) =>
      if target.None? then Fail(p, j, Unresolved(id)) else Run(g, k, target.value, p, j)
    case TypeSchema(_, table, enumeration, constant, logic, i, t, e) =>
      Then(Then(RunTable(g, k, Rank(g, n), table, p, j), RunValues(enumeration, constant, p, j)),
           Then(RunLogic(g, k, Rank(g, n), logic, p, j), RunIf(g, k, Rank(g, n), i, t, e, p, j)))
  }

  function RunValues(enumeration: Option<seq<Json>>, constant: Option<Json>, p: Pointer, j: Json): Outcome {
    Then(FailIf(enumeration.Some? && FindEqual(enumeration.value, j) == |enumeration.value|, p, j, NotInEnum),
         FailIf(constant.Some? && !JsonEq(constant.value, j), p, j, NotConst))
  }

  function RunTable(g: Graph, k: Checks, r: nat, table: TypeTable, p: Pointer, j: Json): Outcome
    requires Evaluable(g) && TableOk(g, r, table)
    decreases Size(j), r, 1, 2
  {
    match j
    case Null => FailIf(!table.nullType, p, j, UnexpectedType)
    case Boolean(_) => FailIf(!table.booleanType, p, j, UnexpectedType)
    case Integer(x) =>
      if table.integerType.None? then Fail(p, j, UnexpectedType)
      else RunNumber(k, table.integerType.value, p, j, x as real)
    case Unsigned(x) =>
      if table.unsignedType.None? then Fail(p, j, UnexpectedType)
      else RunNumber(k, table.unsignedType.value, p, j, x as real)
    case Float(x) =>
      if table.floatType.None? then Fail(p, j, UnexpectedType)
      else RunNumber(k, table.floatType.value, p, j, x)
    case String(s) =>
      if table.stringType.None? then Fail(p, j, UnexpectedType)
      else RunString(k, table.stringType.value, p, s)
    case Array(items) =>
      if table.arrayType.None? then Fail(p, j, UnexpectedType)
      else RunArray(g, k, table.arrayType.value, p, items)
    case Object(members) =>
      if table.objectType.None? then Fail(p, j, UnexpectedType)
      else RunObject(g, k, r, table.objectType.value, p, members)
  }

  // ---- logic

  function RunLogic(g: Graph, k: Checks, r: nat, logic: seq<Logic>, p: Pointer, j: Json): Outcome
    requires Evaluable(g) && AllLogicBelow(g, r, logic)
    decreases Size(j), r, 1, |logic|
  {
    if logic == [] then Silent
    else
      Then(RunOneLogic(g, k, r, logic[0], p, j), RunLogic(g, k, r, logic[1..], p, j))
  }

  function RunOneLogic(g: Graph, k: Checks, r: nat, logic: Logic, p: Pointer, j: Json): Outcome
    requires Evaluable(g) && LogicBelow(g, r, logic)
    decreases Size(j), r, 1, 0
  {
    match logic
    case Not(s) =>
      var sub := Run(g, k, s, p, j);
      Then(Outcome([], sub.patch), FailIf(sub.errors == [], p, j, NotSucceeded))
    case Combine(c, ss) => RunCombination(g, k, r, c, ss, p, j, 0)
  }

  /** The loop over the sub-schemas of allOf, anyOf or oneOf, with `count` successes so far. */
  function RunCombination(g: Graph, k: Checks, r: nat, c: Combination, ss: seq<Id>, p: Pointer, j: Json,
        count: nat): Outcome
    requires Evaluable(g) && AllBelow(g, r, ss)
    decreases Size(j), r, 0, |ss|
  {
    if ss == [] then FailIf(count == 0, p, j, NoneSucceeded)
    else
      assert AllBelow(g, r, ss[1..]);
      var sub := Run(g, k, ss[0], p, j);
      var count' := if sub.errors == [] then count + 1 else count;
      var complete := Completion(c, sub.errors, count', p, j);
      Then(Outcome([], sub.patch),
           if complete.Some? then complete.value else RunCombination(g, k, r, c, ss[1..], p, j, count'))
  }

  /** `is_validate_complete`: what ends the loop, given the last errors and the success count. */
  function Completion(c: Combination, errors: seq<Report>, count: nat, p: Pointer, j: Json): Option<Outcome> {
    match c
    case AllOf =>
      if errors == [] then None
      else Some(Fail(errors[0].pointer, errors[0].instance, AllOfFailed(errors[0].message)))
    case AnyOf => if count == 1 then Some(Silent) else None
    case OneOf => if count > 1 then Some(Fail(p, j, SeveralSucceeded)) else None
  }

  function RunIf(g: Graph, k: Checks, r: nat, i: Option<Id>, t: Option<Id>, e: Option<Id>, p: Pointer, j: Json): Outcome
    requires Evaluable(g) && OptionBelow(g, r, i) && OptionBelow(g, r, t) && OptionBelow(g, r, e)
    decreases Size(j), r, 1, 0
  {
    if i.None? then Silent
    else
      var sub := Run(g, k, i.value, p, j);
      Then(Outcome([], sub.patch),
           if sub.errors == [] then (if t.Some? then Run(g, k, t.value, p, j) else Silent)
           else (if e.Some? then Run(g, k, e.value, p, j) else Silent))
  }

  // ---- objects

  function RunObject(g: Graph, k: Checks, r: nat, v: ObjectRules, p: Pointer, members: seq<Member>): Outcome
    requires Evaluable(g) && ObjectWithin(g, v) && DependenciesBelow(g, r, v.dependencies)
    decreases Size(Object(members)), r, 1, 0
  {
    Then(RunPresence(v, p, members),
         Then(Then(RunMembers(g, k, v, p, members, 0), RunDefaults(g, v.properties, p, members)),
              RunDependencies(g, k, r, v.dependencies, p, members)))
  }

  function RunPresence(v: ObjectRules, p: Pointer, members: seq<Member>): Outcome {
    var j := Object(members);
    Then(Then(FailIf(v.maxProperties.Some? && |members| > v.maxProperties.value, p, j, TooManyProperties),
              FailIf(v.minProperties.Some? && |members| < v.minProperties.value, p, j, TooFewProperties)),
         RunRequired(v.required, false, p, members))
  }

  /** The loop over the members of the object, from the i-th on. */
  function RunMembers(g: Graph, k: Checks, v: ObjectRules, p: Pointer, members: seq<Member>, i: nat): Outcome
    requires Evaluable(g) && ObjectWithin(g, v) && i <= |members|
    decreases Size(Object(members)), 0, 0, |members| - i
  {
    if i == |members| then Silent
    else Then(RunMember(g, k, v, p, members, members[i]), RunMembers(g, k, v, p, members, i + 1))
  }

  predicate Matched(k: Checks, v: ObjectRules, name: string) {
    || FindProperty(v.properties, name) < |v.properties|
    || exists i | 0 <= i < |v.patternProperties| :: k.matches(v.patternProperties[i].name, name)
  }

  function RunMember(g: Graph, k: Checks, v: ObjectRules, p: Pointer, members: seq<Member>, m: Member): Outcome
    requires Evaluable(g) && ObjectWithin(g, v)
    requires Size(m.value) + 1 < Size(Object(members))
    decreases Size(m.value) + 1, 0, 0, 0
  {
    Then(Then(if v.propertyNames.Some? then Run(g, k, v.propertyNames.value, p, String(m.key)) else Silent,
              RunListed(g, k, v, p, m)),
         Then(RunPatterns(g, k, v.patternProperties, p, m),
              RunAdditional(g, k, v, p, members, m)))
  }

  function RunListed(g: Graph, k: Checks, v: ObjectRules, p: Pointer, m: Member): Outcome
    requires Evaluable(g) && PropertiesWithin(g, v.properties)
    decreases Size(m.value), Top(g), 0, 0
  {
    var i := FindProperty(v.properties, m.key);
    if i == |v.properties| then Silent
    else
      TopIsAbove(g, v.properties[i].schema);
      Run(g, k, v.properties[i].schema, p + [m.key], m.value)
  }

  function RunPatterns(g: Graph, k: Checks, patterns: seq<Property>, p: Pointer, m: Member): Outcome
    requires Evaluable(g) && PropertiesWithin(g, patterns)
    decreases Size(m.value), Top(g), 0, |patterns|
  {
    if patterns == [] then Silent
    else
      TopIsAbove(g, patterns[0].schema);
      Then(if k.matches(patterns[0].name, m.key) then Run(g, k, patterns[0].schema, p + [m.key], m.value) else Silent,
           RunPatterns(g, k, patterns[1..], p, m))
  }

  function RunAdditional(g: Graph, k: Checks, v: ObjectRules, p: Pointer, members: seq<Member>, m: Member): Outcome
    requires Evaluable(g) && OptionWithin(g, v.additionalProperties)
    decreases Size(m.value), Top(g), 0, 0
  {
    if v.additionalProperties.None? || Matched(k, v, m.key) then Silent
    else
      TopIsAbove(g, v.additionalProperties.value);
      var sub := Run(g, k, v.additionalProperties.value, p + [m.key], m.value);
      Outcome(
        if sub.errors == [] then [] else [Report(p, Object(members), AdditionalProperty(m.key, sub.errors[0].message))],
        sub.patch)
  }

  function RunDependencies(g: Graph, k: Checks, r: nat, d: seq<Dependency>, p: Pointer, members: seq<Member>): Outcome
    requires Evaluable(g) && DependenciesBelow(g, r, d)
    decreases Size(Object(members)), r, 0, |d|
  {
    if d == [] then Silent
    else
      Then(RunDependency(g, k, r, d[0], p, members), RunDependencies(g, k, r, d[1..], p, members))
  }

  function RunDependency(g: Graph, k: Checks, r: nat, d: Dependency, p: Pointer, members: seq<Member>): Outcome
    requires Evaluable(g) && (d.requirement.Schema? ==> Below(g, r, d.requirement.schema))
    decreases Size(Object(members)), r, 0, 0
  {
    if !Has(members, d.name) then Silent
    else match d.requirement
      case Names(names) => RunRequired(names, true, p + [d.name], members)
      case Schema(s) => Run(g, k, s, p + [d.name], Object(members))
  }

  // ---- arrays

  function RunArray(g: Graph, k: Checks, v: ArrayRules, p: Pointer, items: seq<Json>): Outcome
    requires Evaluable(g) && ArrayWithin(g, v)
    decreases Size(Array(items)), 0, 1, 1
  {
    Then(RunCounts(v, p, items),
         RunElements(g, k, v, p, items))
  }

  function RunElements(g: Graph, k: Checks, v: ArrayRules, p: Pointer, items: seq<Json>): Outcome
    requires Evaluable(g) && ArrayWithin(g, v)
    decreases Size(Array(items)), 0, 1, 0
  {
    Then(if v.itemsSchema.Some? then RunItems(g, k, v.itemsSchema.value, p, items, 0)
      else RunTuple(g, k, v, p, items, 0),
         if v.contains.Some? then RunContains(g, k, v.contains.value, p, items, 0) else Silent)
  }

  function RunCounts(v: ArrayRules, p: Pointer, items: seq<Json>): Outcome {
    var j := Array(items);
    Then(Then(FailIf(v.maxItems.Some? && |items| > v.maxItems.value, p, j, TooManyItems),
              FailIf(v.minItems.Some? && |items| < v.minItems.value, p, j, TooFewItems)),
         if v.uniqueItems then RunUnique(p, items, 0) else Silent)
  }

  function RunItems(g: Graph, k: Checks, s: Id, p: Pointer, items: seq<Json>, i: nat): Outcome
    requires Evaluable(g) && s < |g| && i <= |items|
    decreases Size(Array(items)), 0, 0, |items| - i
  {
    if i == |items| then Silent
    else Then(Run(g, k, s, p + [Decimal(i)], items[i]), RunItems(g, k, s, p, items, i + 1))
  }

  /** Schema for the i-th element of a tuple: its own, or `additionalItems` past the list. */
  function TupleSchema(v: ArrayRules, i: nat): Option<Id> {
    if i < |v.items| then Some(v.items[i]) else v.additionalItems
  }

  /** The tuple loop never advances its index: every element is reported as element 0. */
  function RunTuple(g: Graph, k: Checks, v: ArrayRules, p: Pointer, items: seq<Json>, i: nat): Outcome
    requires Evaluable(g) && ArrayWithin(g, v) && i <= |items|
    decreases Size(Array(items)), 0, 0, |items| - i
  {
    if i == |items| || TupleSchema(v, i).None? then Silent
    else Then(Run(g, k, TupleSchema(v, i).value, p + [Decimal(0)], items[i]), RunTuple(g, k, v, p, items, i + 1))
  }

  /** The search for a contained element; elements are validated under the array's own pointer. */
  function RunContains(g: Graph, k: Checks, s: Id, p: Pointer, items: seq<Json>, i: nat): Outcome
    requires Evaluable(g) && s < |g| && i <= |items|
    decreases Size(Array(items)), 0, 0, |items| - i
  {
    if i == |items| then Fail(p, Array(items), NotContained)
    else
      var sub := Run(g, k, s, p, items[i]);
      Then(Outcome([], sub.patch), if sub.errors == [] then Silent else RunContains(g, k, s, p, items, i + 1))
  }

  /** A number above every rank of the graph. */
  function Top(g: Graph): nat { |g| + 1 }

  lemma TopIsAbove(g: Graph, n: Id)
    ensures Rank(g, n) < Top(g)
  {
    D.DepthBound(SameInstanceEdges(g), n, |g|);
  }
}
