/** Where reports and default-patch operations point. */

module Pointers {
  import opened Wrappers
  import opened Json
  import opened SchemaGraph
  import opened Evaluation

  /** The report's pointer, followed from the root instance, ends at the reported instance. */
  ghost predicate ReportOk(root: Json, r: Report) {
    At(root, r.pointer) == Found(r.instance)
  }

  /** The operation adds a member that is absent from an object of the root instance. */
  ghost predicate AdditionOk(root: Json, op: Addition) {
    |op.pointer| > 0 && Lacks(ParentAt(root, op.pointer), op.pointer[|op.pointer| - 1])
  }

  function ParentAt(root: Json, pointer: Pointer): Lookup
    requires pointer != []
  {
    At(root, pointer[..|pointer| - 1])
  }

  ghost predicate Lacks(parent: Lookup, name: string) {
    parent.Found? && parent.json.Object? && !Has(parent.json.members, name)
  }

  /** What is claimed of an outcome: that its reports point right, or its patch operations; that
      everything points below a base; that all reports are about one string under one pointer. */
  datatype Claim = Reports | Patch | Under(base: Pointer) | Only(base: Pointer, text: string)

  ghost predicate Sound(root: Json, claim: Claim, o: Outcome) {
    match claim
    case Reports => forall i | 0 <= i < |o.errors| :: ReportOk(root, o.errors[i])
    case Patch => forall i | 0 <= i < |o.patch| :: AdditionOk(root, o.patch[i])
    case Under(base) =>
      && (forall i | 0 <= i < |o.errors| :: base <= o.errors[i].pointer)
      && (forall i | 0 <= i < |o.patch| :: base < o.patch[i].pointer)
    case Only(base, text) => forall i | 0 <= i < |o.errors| ::
      o.errors[i].pointer == base && o.errors[i].instance == String(text)
  }

  /** The pointer leads to the instance; a property name, validated as a string of its own,
      cannot be located but adds nothing to the patch. */
  ghost predicate Located(root: Json, claim: Claim, p: Pointer, j: Json) {
    match claim
    case Reports => At(root, p) == Found(j)
    case Patch => At(root, p) == Found(j) || j.String?
    case Under(base) => base <= p
    case Only(base, text) => p == base && j == String(text)
  }

  /** Objects without dependencies and arrays with at most the first element described by
      position; for reports no `propertyNames`, for the patch no `contains`. */
  ghost predicate StraightNode(node: Node, claim: Claim) {
    node.TypeSchema? && (claim.Reports? || claim.Patch?) ==>
      && (node.table.objectType.Some? ==> StraightObject(node.table.objectType.value, claim))
      && (node.table.arrayType.Some? ==> StraightArray(node.table.arrayType.value, claim))
  }

  ghost predicate StraightObject(v: ObjectRules, claim: Claim) {
    claim.Reports? || claim.Patch? ==> v.dependencies == [] && (claim.Reports? ==> v.propertyNames.None?)
  }

  ghost predicate StraightArray(v: ArrayRules, claim: Claim) {
    claim.Reports? || claim.Patch? ==>
      && (claim.Patch? ==> v.contains.None?)
      && (v.itemsSchema.Some? || (v.additionalItems.None? && |v.items| <= 1))
  }

  ghost predicate Straight(g: Graph, claim: Claim) {
    forall n {:trigger StraightNode(g[n], claim)} | 0 <= n < |g| :: StraightNode(g[n], claim)
  }

  lemma SoundThen(root: Json, claim: Claim, a: Outcome, b: Outcome)
    requires Sound(root, claim, a) && Sound(root, claim, b)
    ensures Sound(root, claim, Then(a, b))
  {
    var o := Then(a, b);
    match claim
    case Reports =>
      forall i | 0 <= i < |o.errors| ensures ReportOk(root, o.errors[i]) {
        assert o.errors[i] == if i < |a.errors| then a.errors[i] else b.errors[i - |a.errors|];
      }
    case Patch =>
      forall i | 0 <= i < |o.patch| ensures AdditionOk(root, o.patch[i]) {
        assert o.patch[i] == if i < |a.patch| then a.patch[i] else b.patch[i - |a.patch|];
      }
    case Under(base) =>
    case Only(base, text) =>
  }

  lemma SoundFail(root: Json, claim: Claim, p: Pointer, j: Json, m: Message)
    requires Located(root, claim, p, j)
    ensures Sound(root, claim, Fail(p, j, m)) && Sound(root, claim, Silent)
  {
  }

  lemma {:induction false} PartWellFormed(root: Json, p: Pointer)
    requires WellFormed(root) && At(root, p).Found?
    ensures WellFormed(At(root, p).json)
  {
    if p != [] {
      PartWellFormed(Child(root, p[0]).json, p[1..]);
    }
  }

  lemma {:induction false} StepToMember(root: Json, claim: Claim, p: Pointer, members: seq<Member>, i: nat)
    requires WellFormed(root) && Located(root, claim, p, Object(members)) && i < |members|
    ensures Located(root, claim, p + [members[i].key], members[i].value)
  {
    if claim.Reports? || claim.Patch? {
      PartWellFormed(root, p);
      AtAppend(root, p, members[i].key);
      AtMember(members, i);
    }
  }

  lemma {:induction false} StepToItem(root: Json, claim: Claim, p: Pointer, items: seq<Json>, i: nat)
    requires Located(root, claim, p, Array(items)) && i < |items|
    ensures Located(root, claim, p + [Decimal(i)], items[i])
  {
    if claim.Reports? || claim.Patch? {
      AtAppend(root, p, Decimal(i));
      AtItem(items, i);
    }
  }

  /** Every report and every patch operation of a validation points where it should, also
      those of failed branches and those re-reported by `allOf` and `additionalProperties`. */
  lemma {:induction false} RunSound(root: Json, claim: Claim, g: Graph, k: Checks, n: Id, p: Pointer, j: Json)
    requires Evaluable(g) && Straight(g, claim) && n < |g| && WellFormed(root) && Located(root, claim, p, j)
    ensures Sound(root, claim, Run(g, k, n, p, j))
    decreases Size(j), Rank(g, n), 2, 0
  {
    NodeParts(g, n);
    match g[n]
    case BooleanSchema(_) =>
    case Reference(_, _, target) => if target.Some? { RunSound(root, claim, g, k, target.value, p, j); }
    case TypeSchema(_, _, _, _, _, _, _, _) => NodeSound(root, claim, g, k, n, p, j);
  }

  lemma {:induction false} NodeSound(root: Json, claim: Claim, g: Graph, k: Checks, n: Id, p: Pointer, j: Json)
    requires Evaluable(g) && Straight(g, claim) && n < |g| && g[n].TypeSchema? && NodeOk(g, n)
    requires WellFormed(root) && Located(root, claim, p, j)
    ensures Sound(root, claim, Run(g, k, n, p, j))
    decreases Size(j), Rank(g, n), 1, |g[n].logic| + 3
  {
    var node, r := g[n], Rank(g, n);
    assert StraightNode(g[n], claim);
    TableSound(root, claim, g, k, r, node.table, p, j);
    ValuesSound(root, claim, node.enumeration, node.constant, p, j);
    LogicSound(root, claim, g, k, r, node.logic, p, j);
    IfSound(root, claim, g, k, r, node.ifSchema, node.thenSchema, node.elseSchema, p, j);
    FourSound(root, claim, RunTable(g, k, r, node.table, p, j), RunValues(node.enumeration, node.constant, p, j),
              RunLogic(g, k, r, node.logic, p, j),
              RunIf(g, k, r, node.ifSchema, node.thenSchema, node.elseSchema, p, j));
  }

  lemma FourSound(root: Json, claim: Claim, a: Outcome, b: Outcome, c: Outcome, d: Outcome)
    requires Sound(root, claim, a) && Sound(root, claim, b) && Sound(root, claim, c) && Sound(root, claim, d)
    ensures Sound(root, claim, Then(Then(a, b), Then(c, d)))
  {
    SoundThen(root, claim, a, b);
    SoundThen(root, claim, c, d);
    SoundThen(root, claim, Then(a, b), Then(c, d));
  }

  lemma ValuesSound(root: Json, claim: Claim, enumeration: Option<seq<Json>>, constant: Option<Json>, p: Pointer,
        j: Json)
    requires Located(root, claim, p, j)
    ensures Sound(root, claim, RunValues(enumeration, constant, p, j))
  {
    SoundThen(root, claim,
      FailIf(enumeration.Some? && FindEqual(enumeration.value, j) == |enumeration.value|, p, j, NotInEnum),
              FailIf(constant.Some? && !JsonEq(constant.value, j), p, j, NotConst));
  }

  lemma StringSound(root: Json, claim: Claim, k: Checks, v: StringRules, p: Pointer, s: string)
    requires Located(root, claim, p, String(s))
    ensures Sound(root, claim, RunString(k, v, p, s))
  {
    SoundThen(root, claim, RunMinLength(v, p, s), RunMaxLength(v, p, s));
    TextSound(root, claim, k, v, p, s);
    SoundThen(root, claim, RunLengths(v, p, s), RunText(k, v, p, s));
  }

  lemma TextSound(root: Json, claim: Claim, k: Checks, v: StringRules, p: Pointer, s: string)
    requires Located(root, claim, p, String(s))
    ensures Sound(root, claim, RunText(k, v, p, s))
  {
    SoundThen(root, claim, RunContent(k, v, p, s), RunPattern(k, v, p, s));
    SoundThen(root, claim, Then(RunContent(k, v, p, s), RunPattern(k, v, p, s)), RunFormat(k, v, p, s));
  }

  lemma NumberSound(root: Json, claim: Claim, k: Checks, b: Bounds, p: Pointer, j: Json, x: real)
    requires Located(root, claim, p, j)
    ensures Sound(root, claim, RunNumber(k, b, p, j, x))
  {
    MaximumSound(root, claim, b, p, j, x);
    MinimumSound(root, claim, b, p, j, x);
    SoundThen(root, claim, RunMultiple(k, b, p, j, x), RunMaximum(b, p, j, x));
    SoundThen(root, claim, Then(RunMultiple(k, b, p, j, x), RunMaximum(b, p, j, x)), RunMinimum(b, p, j, x));
  }

  lemma MaximumSound(root: Json, claim: Claim, b: Bounds, p: Pointer, j: Json, x: real)
    requires Located(root, claim, p, j)
    ensures Sound(root, claim, RunMaximum(b, p, j, x))
  {
  }

  lemma MinimumSound(root: Json, claim: Claim, b: Bounds, p: Pointer, j: Json, x: real)
    requires Located(root, claim, p, j)
    ensures Sound(root, claim, RunMinimum(b, p, j, x))
  {
  }

  lemma {:induction false} TableSound(root: Json, claim: Claim, g: Graph, k: Checks, r: nat, table: TypeTable,
        p: Pointer, j: Json)
    requires Evaluable(g) && Straight(g, claim) && TableOk(g, r, table) && WellFormed(root)
    requires Located(root, claim, p, j)
    requires table.objectType.Some? ==> StraightObject(table.objectType.value, claim)
    requires table.arrayType.Some? ==> StraightArray(table.arrayType.value, claim)
    ensures Sound(root, claim, RunTable(g, k, r, table, p, j))
    decreases Size(j), r, 1, 2
  {
    SoundFail(root, claim, p, j, UnexpectedType);
    match j
    case Integer(x) =>
      if table.integerType.Some? {
        NumberSound(root, claim, k, table.integerType.value, p, j, x as real);
      }
    case Unsigned(x) =>
      if table.unsignedType.Some? {
        NumberSound(root, claim, k, table.unsignedType.value, p, j, x as real);
      }
    case Float(x) => if table.floatType.Some? { NumberSound(root, claim, k, table.floatType.value, p, j, x); }
    case String(s) => if table.stringType.Some? { StringSound(root, claim, k, table.stringType.value, p, s); }
    case Array(items) => if table.arrayType.Some? { ArraySound(root, claim, g, k, table.arrayType.value, p, items); }
    case Object(members) =>
      if table.objectType.Some? {
        ObjectSound(root, claim, g, k, r, table.objectType.value, p, members);
      }
    case _ =>
  }

  lemma {:induction false} LogicSound(root: Json, claim: Claim, g: Graph, k: Checks, r: nat, logic: seq<Logic>,
        p: Pointer, j: Json)
    requires Evaluable(g) && Straight(g, claim) && AllLogicBelow(g, r, logic) && WellFormed(root)
    requires Located(root, claim, p, j)
    ensures Sound(root, claim, RunLogic(g, k, r, logic, p, j))
    decreases Size(j), r, 1, |logic|
  {
    if logic != [] {
      OneLogicSound(root, claim, g, k, r, logic[0], p, j);
      LogicSound(root, claim, g, k, r, logic[1..], p, j);
      SoundThen(root, claim, RunOneLogic(g, k, r, logic[0], p, j), RunLogic(g, k, r, logic[1..], p, j));
    }
  }

  lemma {:induction false} OneLogicSound(root: Json, claim: Claim, g: Graph, k: Checks, r: nat, logic: Logic,
        p: Pointer, j: Json)
    requires Evaluable(g) && Straight(g, claim) && LogicBelow(g, r, logic) && WellFormed(root)
    requires Located(root, claim, p, j)
    ensures Sound(root, claim, RunOneLogic(g, k, r, logic, p, j))
    decreases Size(j), r, 1, 0
  {
    match logic
    case Not(s) =>
      RunSound(root, claim, g, k, s, p, j);
      var sub := Run(g, k, s, p, j);
      SoundThen(root, claim, Outcome([], sub.patch), FailIf(sub.errors == [], p, j, NotSucceeded));
    case Combine(c, ss) =>
      CombinationSound(root, claim, g, k, r, c, ss, p, j, 0);
  }

  lemma {:induction false} CombinationSound(root: Json, claim: Claim, g: Graph, k: Checks, r: nat, c: Combination,
        ss: seq<Id>, p: Pointer, j: Json, count: nat)
    requires Evaluable(g) && Straight(g, claim) && AllBelow(g, r, ss) && WellFormed(root) && Located(root, claim, p, j)
    ensures Sound(root, claim, RunCombination(g, k, r, c, ss, p, j, count))
    decreases Size(j), r, 0, |ss|
  {
    if ss != [] {
      var rest := ss[1..];
      assert AllBelow(g, r, rest);
      RunSound(root, claim, g, k, ss[0], p, j);
      var sub := Run(g, k, ss[0], p, j);
      var count' := if sub.errors == [] then count + 1 else count;
      var complete := Completion(c, sub.errors, count', p, j);
      CompletionSound(root, claim, c, sub, count', p, j);
      if complete.None? {
        CombinationSound(root, claim, g, k, r, c, rest, p, j, count');
        SoundThen(root, claim, Outcome([], sub.patch), RunCombination(g, k, r, c, rest, p, j, count'));
      }
    }
  }

  lemma CompletionSound(root: Json, claim: Claim, c: Combination, sub: Outcome, count: nat, p: Pointer, j: Json)
    requires Sound(root, claim, sub) && Located(root, claim, p, j)
    ensures var complete := Completion(c, sub.errors, count, p, j);
      complete.Some? ==> Sound(root, claim, Then(Outcome([], sub.patch), complete.value))
  {
    var complete := Completion(c, sub.errors, count, p, j);
    if complete.Some? { SoundThen(root, claim, Outcome([], sub.patch), complete.value); }
  }

  lemma {:induction false} IfSound(root: Json, claim: Claim, g: Graph, k: Checks, r: nat, i: Option<Id>, t: Option<Id>,
        e: Option<Id>, p: Pointer, j: Json)
    requires Evaluable(g) && Straight(g, claim) && OptionBelow(g, r, i) && OptionBelow(g, r, t) && OptionBelow(g, r, e)
    requires WellFormed(root) && Located(root, claim, p, j)
    ensures Sound(root, claim, RunIf(g, k, r, i, t, e, p, j))
    decreases Size(j), r, 1, 0
  {
    if i.Some? {
      RunSound(root, claim, g, k, i.value, p, j);
      var sub := Run(g, k, i.value, p, j);
      var branch := if sub.errors == [] then t else e;
      if branch.Some? { RunSound(root, claim, g, k, branch.value, p, j); }
      SoundThen(root, claim, Outcome([], sub.patch), if branch.Some? then Run(g, k, branch.value, p, j) else Silent);
    }
  }

  lemma {:induction false} RequiredSound(root: Json, claim: Claim, required: seq<string>, dependency: bool, p: Pointer,
        members: seq<Member>)
    requires Located(root, claim, p, Object(members))
    ensures Sound(root, claim, RunRequired(required, dependency, p, members))
  {
    if required != [] {
      RequiredSound(root, claim, required[1..], dependency, p, members);
      var m := if dependency then MissingDependency(required[0]) else MissingProperty(required[0]);
      SoundThen(root, claim, FailIf(!Has(members, required[0]), p, Object(members), m),
                RunRequired(required[1..], dependency, p, members));
    }
  }

  lemma {:induction false} DefaultsSound(root: Json, claim: Claim, g: Graph, properties: seq<Property>, p: Pointer,
        members: seq<Member>)
    requires Evaluable(g) && PropertiesWithin(g, properties) && Located(root, claim, p, Object(members))
    ensures Sound(root, claim, RunDefaults(g, properties, p, members))
  {
    if properties != [] {
      var name, d := properties[0].name, RunDefault(g, properties[0], p, members);
      assert (p + [name])[..|p|] == p;
      assert Sound(root, claim, d);
      DefaultsSound(root, claim, g, properties[1..], p, members);
      SoundThen(root, claim, d, RunDefaults(g, properties[1..], p, members));
    }
  }

  lemma PresenceSound(root: Json, claim: Claim, v: ObjectRules, p: Pointer, members: seq<Member>)
    requires Located(root, claim, p, Object(members))
    ensures Sound(root, claim, RunPresence(v, p, members))
  {
    var j := Object(members);
    var many := FailIf(v.maxProperties.Some? && |members| > v.maxProperties.value, p, j, TooManyProperties);
    var few := FailIf(v.minProperties.Some? && |members| < v.minProperties.value, p, j, TooFewProperties);
    SoundThen(root, claim, many, few);
    RequiredSound(root, claim, v.required, false, p, members);
    SoundThen(root, claim, Then(many, few), RunRequired(v.required, false, p, members));
  }

  lemma {:induction false} ObjectSound(root: Json, claim: Claim, g: Graph, k: Checks, r: nat, v: ObjectRules,
        p: Pointer, members: seq<Member>)
    requires Evaluable(g) && Straight(g, claim) && ObjectWithin(g, v) && DependenciesBelow(g, r, v.dependencies)
    requires WellFormed(root) && Located(root, claim, p, Object(members)) && StraightObject(v, claim)
    ensures Sound(root, claim, RunObject(g, k, r, v, p, members))
    decreases Size(Object(members)), r, 1, 0
  {
    PresenceSound(root, claim, v, p, members);
    MembersSound(root, claim, g, k, v, p, members, 0);
    DefaultsSound(root, claim, g, v.properties, p, members);
    var a, b := RunMembers(g, k, v, p, members, 0), RunDefaults(g, v.properties, p, members);
    var c := RunDependencies(g, k, r, v.dependencies, p, members);
    DependenciesSound(root, claim, g, k, r, v.dependencies, p, members);
    SoundThen(root, claim, a, b);
    SoundThen(root, claim, Then(a, b), c);
    SoundThen(root, claim, RunPresence(v, p, members), Then(Then(a, b), c));
  }

  lemma {:induction false} DependenciesSound(root: Json, claim: Claim, g: Graph, k: Checks, r: nat, d: seq<Dependency>,
        p: Pointer, members: seq<Member>)
    requires Evaluable(g) && Straight(g, claim) && DependenciesBelow(g, r, d)
    requires WellFormed(root) && Located(root, claim, p, Object(members)) && (d == [] || claim.Under?)
    ensures Sound(root, claim, RunDependencies(g, k, r, d, p, members))
    decreases Size(Object(members)), r, 0, |d|
  {
    if d != [] {
      assert d[0] in d && (d[0].requirement.Schema? ==> Below(g, r, d[0].requirement.schema));
      if Has(members, d[0].name) {
        match d[0].requirement {
          case Names(names) => RequiredUnder(root, claim, names, p + [d[0].name], members);
          case Schema(s) => RunSound(root, claim, g, k, s, p + [d[0].name], Object(members));
        }
      }
      DependenciesSound(root, claim, g, k, r, d[1..], p, members);
      SoundThen(root, claim, RunDependency(g, k, r, d[0], p, members), RunDependencies(g, k, r, d[1..], p, members));
    }
  }

  lemma {:induction false} RequiredUnder(root: Json, claim: Claim, names: seq<string>, p: Pointer, members: seq<Member>)
    requires claim.Under? && claim.base <= p
    ensures Sound(root, claim, RunRequired(names, true, p, members))
  {
    RequiredSound(root, claim, names, true, p, members);
  }

  lemma {:induction false} MembersSound(root: Json, claim: Claim, g: Graph, k: Checks, v: ObjectRules, p: Pointer,
        members: seq<Member>, i: nat)
    requires Evaluable(g) && Straight(g, claim) && ObjectWithin(g, v) && i <= |members|
    requires WellFormed(root) && Located(root, claim, p, Object(members)) && StraightObject(v, claim)
    ensures Sound(root, claim, RunMembers(g, k, v, p, members, i))
    decreases Size(Object(members)), 0, 0, |members| - i
  {
    if i < |members| {
      StepToMember(root, claim, p, members, i);
      MemberSound(root, claim, g, k, v, p, members, members[i]);
      MembersSound(root, claim, g, k, v, p, members, i + 1);
      SoundThen(root, claim, RunMember(g, k, v, p, members, members[i]), RunMembers(g, k, v, p, members, i + 1));
    }
  }

  lemma {:induction false} MemberSound(root: Json, claim: Claim, g: Graph, k: Checks, v: ObjectRules, p: Pointer,
        members: seq<Member>, m: Member)
    requires Evaluable(g) && Straight(g, claim) && ObjectWithin(g, v) && StraightObject(v, claim)
    requires Size(m.value) + 1 < Size(Object(members))
    requires WellFormed(root) && Located(root, claim, p, Object(members)) && Located(root, claim, p + [m.key], m.value)
    ensures Sound(root, claim, RunMember(g, k, v, p, members, m))
    decreases Size(m.value) + 1, 0, 0, 0
  {
    var name := if v.propertyNames.Some? then Run(g, k, v.propertyNames.value, p, String(m.key)) else Silent;
    if v.propertyNames.Some? { RunSound(root, claim, g, k, v.propertyNames.value, p, String(m.key)); }
    ListedSound(root, claim, g, k, v, p, m);
    SoundThen(root, claim, name, RunListed(g, k, v, p, m));
    PatternsSound(root, claim, g, k, v.patternProperties, p, m);
    AdditionalSound(root, claim, g, k, v, p, members, m);
    SoundThen(root, claim, RunPatterns(g, k, v.patternProperties, p, m), RunAdditional(g, k, v, p, members, m));
    SoundThen(root, claim, Then(name, RunListed(g, k, v, p, m)),
              Then(RunPatterns(g, k, v.patternProperties, p, m), RunAdditional(g, k, v, p, members, m)));
  }

  lemma {:induction false} ListedSound(root: Json, claim: Claim, g: Graph, k: Checks, v: ObjectRules, p: Pointer,
        m: Member)
    requires Evaluable(g) && Straight(g, claim) && PropertiesWithin(g, v.properties)
    requires WellFormed(root) && Located(root, claim, p + [m.key], m.value)
    ensures Sound(root, claim, RunListed(g, k, v, p, m))
    decreases Size(m.value), Top(g), 0, 0
  {
    var i := FindProperty(v.properties, m.key);
    if i < |v.properties| {
      TopIsAbove(g, v.properties[i].schema);
      RunSound(root, claim, g, k, v.properties[i].schema, p + [m.key], m.value);
    }
  }

  lemma {:induction false} AdditionalSound(root: Json, claim: Claim, g: Graph, k: Checks, v: ObjectRules, p: Pointer,
        members: seq<Member>, m: Member)
    requires Evaluable(g) && Straight(g, claim) && OptionWithin(g, v.additionalProperties)
    requires WellFormed(root) && Located(root, claim, p, Object(members)) && Located(root, claim, p + [m.key], m.value)
    ensures Sound(root, claim, RunAdditional(g, k, v, p, members, m))
    decreases Size(m.value), Top(g), 0, 0
  {
    if v.additionalProperties.Some? {
      TopIsAbove(g, v.additionalProperties.value);
      RunSound(root, claim, g, k, v.additionalProperties.value, p + [m.key], m.value);
    }
  }

  lemma {:induction false} PatternsSound(root: Json, claim: Claim, g: Graph, k: Checks, patterns: seq<Property>,
        p: Pointer, m: Member)
    requires Evaluable(g) && Straight(g, claim) && PropertiesWithin(g, patterns)
    requires WellFormed(root) && Located(root, claim, p + [m.key], m.value)
    ensures Sound(root, claim, RunPatterns(g, k, patterns, p, m))
    decreases Size(m.value), Top(g), 0, |patterns|
  {
    if patterns != [] {
      TopIsAbove(g, patterns[0].schema);
      RunSound(root, claim, g, k, patterns[0].schema, p + [m.key], m.value);
      PatternsSound(root, claim, g, k, patterns[1..], p, m);
      SoundThen(root, claim,
                if k.matches(patterns[0].name, m.key) then Run(g, k, patterns[0].schema, p + [m.key], m.value)
                  else Silent,
                RunPatterns(g, k, patterns[1..], p, m));
    }
  }

  lemma {:induction false} UniqueSound(root: Json, claim: Claim, p: Pointer, items: seq<Json>, i: nat)
    requires Located(root, claim, p, Array(items))
    ensures Sound(root, claim, RunUnique(p, items, i))
    decreases |items| - i
  {
    if i < |items| {
      UniqueSound(root, claim, p, items, i + 1);
      SoundThen(root, claim, FailIf(FindEqual(items[i + 1..], items[i]) < |items| - i - 1, p, Array(items), NotUnique),
                RunUnique(p, items, i + 1));
    }
  }

  lemma CountsSound(root: Json, claim: Claim, v: ArrayRules, p: Pointer, items: seq<Json>)
    requires Located(root, claim, p, Array(items))
    ensures Sound(root, claim, RunCounts(v, p, items))
  {
    var j := Array(items);
    var many := FailIf(v.maxItems.Some? && |items| > v.maxItems.value, p, j, TooManyItems);
    var few := FailIf(v.minItems.Some? && |items| < v.minItems.value, p, j, TooFewItems);
    SoundThen(root, claim, many, few);
    UniqueSound(root, claim, p, items, 0);
    SoundThen(root, claim, Then(many, few), if v.uniqueItems then RunUnique(p, items, 0) else Silent);
  }

  lemma {:induction false} ArraySound(root: Json, claim: Claim, g: Graph, k: Checks, v: ArrayRules, p: Pointer,
        items: seq<Json>)
    requires Evaluable(g) && Straight(g, claim) && ArrayWithin(g, v) && StraightArray(v, claim)
    requires WellFormed(root) && Located(root, claim, p, Array(items))
    ensures Sound(root, claim, RunArray(g, k, v, p, items))
    decreases Size(Array(items)), 0, 1, 1
  {
    CountsSound(root, claim, v, p, items);
    var elements := if v.itemsSchema.Some? then RunItems(g, k, v.itemsSchema.value, p, items, 0)
        else RunTuple(g, k, v, p, items, 0);
    if v.itemsSchema.Some? {
      ItemsSound(root, claim, g, k, v.itemsSchema.value, p, items, 0);
    } else {
      TupleSound(root, claim, g, k, v, p, items, 0);
    }
    var contained := if v.contains.Some? then RunContains(g, k, v.contains.value, p, items, 0) else Silent;
    if v.contains.Some? { ContainsSound(root, claim, g, k, v.contains.value, p, items, 0); }
    SoundThen(root, claim, elements, contained);
    SoundThen(root, claim, RunCounts(v, p, items), Then(elements, contained));
  }

  lemma {:induction false} ItemsSound(root: Json, claim: Claim, g: Graph, k: Checks, s: Id, p: Pointer,
        items: seq<Json>, i: nat)
    requires Evaluable(g) && Straight(g, claim) && s < |g| && i <= |items|
    requires WellFormed(root) && Located(root, claim, p, Array(items))
    ensures Sound(root, claim, RunItems(g, k, s, p, items, i))
    decreases Size(Array(items)), 0, 0, |items| - i
  {
    if i < |items| {
      StepToItem(root, claim, p, items, i);
      RunSound(root, claim, g, k, s, p + [Decimal(i)], items[i]);
      ItemsSound(root, claim, g, k, s, p, items, i + 1);
      SoundThen(root, claim, Run(g, k, s, p + [Decimal(i)], items[i]), RunItems(g, k, s, p, items, i + 1));
    }
  }

  /** `contains` tries every element under the array's pointer, but keeps those reports to itself. */
  lemma {:induction false} ContainsSound(root: Json, claim: Claim, g: Graph, k: Checks, s: Id, p: Pointer,
        items: seq<Json>, i: nat)
    requires Evaluable(g) && Straight(g, claim) && s < |g| && i <= |items|
    requires WellFormed(root) && Located(root, claim, p, Array(items)) && !claim.Patch?
    ensures Sound(root, claim, RunContains(g, k, s, p, items, i))
    decreases Size(Array(items)), 0, 0, |items| - i
  {
    if i < |items| {
      var sub := Run(g, k, s, p, items[i]);
      if claim.Under? { RunSound(root, claim, g, k, s, p, items[i]); }
      ContainsSound(root, claim, g, k, s, p, items, i + 1);
      SoundThen(root, claim, Outcome([], sub.patch),
                if sub.errors == [] then Silent else RunContains(g, k, s, p, items, i + 1));
    }
  }

  /** The first element is reported where it stands, the others below the first. */
  lemma {:induction false} TupleSound(root: Json, claim: Claim, g: Graph, k: Checks, v: ArrayRules, p: Pointer,
        items: seq<Json>, i: nat)
    requires Evaluable(g) && Straight(g, claim) && ArrayWithin(g, v) && StraightArray(v, claim) && v.itemsSchema.None?
    requires WellFormed(root) && Located(root, claim, p, Array(items)) && i <= |items|
    ensures Sound(root, claim, RunTuple(g, k, v, p, items, i))
    decreases Size(Array(items)), 0, 0, |items| - i
  {
    if i < |items| && TupleSchema(v, i).Some? {
      if i == 0 { StepToItem(root, claim, p, items, 0); }
      RunSound(root, claim, g, k, TupleSchema(v, i).value, p + [Decimal(0)], items[i]);
      TupleSound(root, claim, g, k, v, p, items, i + 1);
      SoundThen(root, claim, Run(g, k, TupleSchema(v, i).value, p + [Decimal(0)], items[i]),
        RunTuple(g, k, v, p, items, i + 1));
    }
  }

  /** Validation of a whole instance. */
  lemma {:induction false} WholeInstanceSound(g: Graph, k: Checks, n: Id, root: Json, claim: Claim)
    requires Evaluable(g) && Straight(g, claim) && n < |g| && WellFormed(root) && (claim.Reports? || claim.Patch?)
    ensures Sound(root, claim, Run(g, k, n, [], root))
  {
    RunSound(root, claim, g, k, n, [], root);
  }

  // ---------------------------------------------------------------- where pointers go wrong

  /** Whatever is reported or added while an instance is validated under a pointer lies below it. */
  lemma {:induction false} RunUnder(g: Graph, k: Checks, n: Id, p: Pointer, j: Json)
    requires Evaluable(g) && n < |g|
    ensures Sound(Null, Under(p), Run(g, k, n, p, j))
  {
    RunSound(Null, Under(p), g, k, n, p, j);
  }

  lemma {:induction false} AtJoin(root: Json, p: Pointer, q: Pointer)
    requires At(root, p).Found?
    ensures At(root, p + q) == At(At(root, p).json, q)
  {
    if p == [] {
      assert p + q == q;
    } else {
      AtJoin(Child(root, p[0]).json, p[1..], q);
      assert (p + q)[1..] == p[1..] + q;
    }
  }

  /** A report below a pointer is right exactly when the rest of its pointer, followed from what
      stands there, ends at the reported instance. */
  lemma {:induction false} ReportBelow(root: Json, p: Pointer, r: Report)
    requires At(root, p).Found? && p <= r.pointer
    ensures ReportOk(root, r) <==> At(At(root, p).json, r.pointer[|p|..]) == Found(r.instance)
  {
    AtJoin(root, p, r.pointer[|p|..]);
    assert p + r.pointer[|p|..] == r.pointer;
  }

  lemma {:induction false} AdditionBelow(root: Json, p: Pointer, op: Addition)
    requires At(root, p).Found? && p < op.pointer
    ensures AdditionOk(root, op) <==> AdditionOk(At(root, p).json, Addition(op.pointer[|p|..], op.value))
  {
    JoinFront(p, op.pointer);
    ParentBelow(root, p, op.pointer);
  }

  lemma {:induction false} ParentBelow(root: Json, p: Pointer, whole: Pointer)
    requires At(root, p).Found? && p < whole
    ensures whole[|p|..] != [] && ParentAt(root, whole) == ParentAt(At(root, p).json, whole[|p|..])
  {
    JoinFront(p, whole);
    AtJoin(root, p, whole[|p|..][..|whole[|p|..]| - 1]);
  }

  lemma JoinFront(p: Pointer, whole: Pointer)
    requires p < whole
    ensures var q := whole[|p|..];
      q != [] && p + q[..|q| - 1] == whole[..|whole| - 1] && q[|q| - 1] == whole[|whole| - 1]
  {
  }

  /** The tuple loop reports every element as the first: a report is right exactly when the rest
      of its pointer, followed from element 0, ends at the reported instance. */
  lemma {:induction false} TupleReportsExact(root: Json, g: Graph, k: Checks, v: ArrayRules, p: Pointer,
        items: seq<Json>)
    requires Evaluable(g) && ArrayWithin(g, v) && v.itemsSchema.None? && At(root, p) == Found(Array(items))
    ensures var o := RunTuple(g, k, v, p, items, 0);
      && Sound(Null, Under(p + ["0"]), o)
      && (forall i | 0 <= i < |o.errors| ::
            items != [] && (ReportOk(root, o.errors[i]) <==>
              At(items[0], o.errors[i].pointer[|p| + 1..]) == Found(o.errors[i].instance)))
      && (forall i | 0 <= i < |o.patch| ::
            items != [] && (AdditionOk(root, o.patch[i]) <==>
              AdditionOk(items[0], Addition(o.patch[i].pointer[|p| + 1..], o.patch[i].value))))
  {
    var o := RunTuple(g, k, v, p, items, 0);
    TupleUnder(g, k, v, p, items, 0);
    assert Decimal(0) == "0";
    if items != [] {
      AtAppend(root, p, Decimal(0));
      AtItem(items, 0);
      forall i | 0 <= i < |o.errors|
        ensures ReportOk(root, o.errors[i]) <==>
          At(items[0], o.errors[i].pointer[|p| + 1..]) == Found(o.errors[i].instance)
      {
        ReportBelow(root, p + ["0"], o.errors[i]);
      }
      forall i | 0 <= i < |o.patch|
        ensures AdditionOk(root, o.patch[i]) <==>
          AdditionOk(items[0], Addition(o.patch[i].pointer[|p| + 1..], o.patch[i].value))
      {
        AdditionBelow(root, p + ["0"], o.patch[i]);
      }
    }
  }

  lemma {:induction false} TupleUnder(g: Graph, k: Checks, v: ArrayRules, p: Pointer, items: seq<Json>, i: nat)
    requires Evaluable(g) && ArrayWithin(g, v) && i <= |items|
    ensures Sound(Null, Under(p + [Decimal(0)]), RunTuple(g, k, v, p, items, i))
    decreases |items| - i
  {
    if i < |items| && TupleSchema(v, i).Some? {
      RunUnder(g, k, TupleSchema(v, i).value, p + [Decimal(0)], items[i]);
      TupleUnder(g, k, v, p, items, i + 1);
      SoundThen(Null, Under(p + [Decimal(0)]), Run(g, k, TupleSchema(v, i).value, p + [Decimal(0)], items[i]),
                RunTuple(g, k, v, p, items, i + 1));
    }
  }

  /** `propertyNames` reports about a name under the pointer of the object: never right. */
  lemma {:induction false} NameReportsNever(root: Json, g: Graph, k: Checks, s: Id, p: Pointer, members: seq<Member>,
        name: string)
    requires Evaluable(g) && s < |g| && At(root, p) == Found(Object(members))
    ensures forall i | 0 <= i < |Run(g, k, s, p, String(name)).errors| ::
      !ReportOk(root, Run(g, k, s, p, String(name)).errors[i])
  {
    RunSound(Null, Only(p, name), g, k, s, p, String(name));
  }

  /** A dependency is reported below the property that asks for it: right exactly when the rest of
      the pointer, followed from that property, ends at the reported instance; never so for a
      report about the object itself. A default goes below that property too: it can be added
      exactly when the rest of its pointer leads from the property to an object without the member. */
  lemma {:induction false} DependencyReportsExact(root: Json, g: Graph, k: Checks, r: nat, d: Dependency, p: Pointer,
        members: seq<Member>)
    requires Evaluable(g) && (d.requirement.Schema? ==> Below(g, r, d.requirement.schema))
    requires At(root, p) == Found(Object(members)) && Has(members, d.name)
    ensures var o := RunDependency(g, k, r, d, p, members);
      && (forall i | 0 <= i < |o.errors| ::
            && p + [d.name] <= o.errors[i].pointer
            && (ReportOk(root, o.errors[i]) <==>
              At(Get(members, d.name), o.errors[i].pointer[|p| + 1..]) == Found(o.errors[i].instance))
            && (o.errors[i].instance == Object(members) ==> !ReportOk(root, o.errors[i])))
      && (forall i | 0 <= i < |o.patch| ::
            && p + [d.name] < o.patch[i].pointer
            && (AdditionOk(root, o.patch[i]) <==>
              AdditionOk(Get(members, d.name), Addition(o.patch[i].pointer[|p| + 1..], o.patch[i].value))))
  {
    var o, q := RunDependency(g, k, r, d, p, members), p + [d.name];
    AtAppend(root, p, d.name);
    DependencyUnder(g, k, r, d, p, members);
    forall i | 0 <= i < |o.errors|
      ensures ReportOk(root, o.errors[i]) <==>
        At(Get(members, d.name), o.errors[i].pointer[|p| + 1..]) == Found(o.errors[i].instance)
      ensures o.errors[i].instance == Object(members) ==> !ReportOk(root, o.errors[i])
    {
      ReportBelow(root, q, o.errors[i]);
      PartSmaller(Get(members, d.name), o.errors[i].pointer[|p| + 1..]);
      assert Size(members[IndexOf(members, d.name)].value) < Size(Object(members));
    }
    forall i | 0 <= i < |o.patch|
      ensures AdditionOk(root, o.patch[i]) <==>
        AdditionOk(Get(members, d.name), Addition(o.patch[i].pointer[|p| + 1..], o.patch[i].value))
    {
      AdditionBelow(root, q, o.patch[i]);
    }
  }

  lemma {:induction false} DependencyUnder(g: Graph, k: Checks, r: nat, d: Dependency, p: Pointer, members: seq<Member>)
    requires Evaluable(g) && (d.requirement.Schema? ==> Below(g, r, d.requirement.schema))
    ensures Sound(Null, Under(p + [d.name]), RunDependency(g, k, r, d, p, members))
  {
    var q := p + [d.name];
    match d.requirement
    case Names(names) => RequiredUnder(Null, Under(q), names, q, members);
    case Schema(s) => RunUnder(g, k, s, q, Object(members));
  }

  lemma {:induction false} PartSmaller(j: Json, p: Pointer)
    ensures At(j, p).Found? ==> Size(At(j, p).json) <= Size(j)
  {
    if p != [] && Child(j, p[0]).Found? { PartSmaller(Child(j, p[0]).json, p[1..]); }
  }

  /** `contains` adds the defaults of an element below the pointer of the array: right exactly when
      the rest of the pointer, followed from the array, leads to an object without the member. */
  lemma {:induction false} ContainsPatchExact(root: Json, g: Graph, k: Checks, s: Id, p: Pointer, items: seq<Json>)
    requires Evaluable(g) && s < |g| && At(root, p) == Found(Array(items))
    ensures var o := RunContains(g, k, s, p, items, 0);
      forall i | 0 <= i < |o.patch| ::
        && p < o.patch[i].pointer
        && (AdditionOk(root, o.patch[i]) <==>
          AdditionOk(Array(items), Addition(o.patch[i].pointer[|p|..], o.patch[i].value)))
        && (|o.patch[i].pointer| == |p| + 1 ==> !AdditionOk(root, o.patch[i]))
  {
    var o := RunContains(g, k, s, p, items, 0);
    ContainsSound(Null, Under(p), g, k, s, p, items, 0);
    forall i | 0 <= i < |o.patch|
      ensures AdditionOk(root, o.patch[i]) <==>
        AdditionOk(Array(items), Addition(o.patch[i].pointer[|p|..], o.patch[i].value))
      ensures |o.patch[i].pointer| == |p| + 1 ==> !AdditionOk(root, o.patch[i])
    {
      AdditionBelow(root, p, o.patch[i]);
      if |o.patch[i].pointer| == |p| + 1 {
        assert o.patch[i].pointer[..|p|] == p;
      }
    }
  }

  /** A failing second element of a tuple is reported as the first one. */
  lemma {:induction false} TupleReportMisplaced(root: Json, g: Graph, k: Checks, v: ArrayRules, p: Pointer, a: Json,
        b: Json)
    requires Evaluable(g) && ArrayWithin(g, v) && v.itemsSchema.None? && |v.items| == 2
    requires g[v.items[0]] == BooleanSchema(true) && g[v.items[1]] == BooleanSchema(false)
    requires At(root, p) == Found(Array([a, b])) && a != b
    ensures RunTuple(g, k, v, p, [a, b], 0).errors == [Report(p + ["0"], b, FalseSchema)]
    ensures !Sound(root, Reports, RunTuple(g, k, v, p, [a, b], 0))
  {
    var items := [a, b];
    assert Decimal(0) == "0";
    assert Run(g, k, v.items[1], p + [Decimal(0)], items[1]) == Fail(p + ["0"], b, FalseSchema);
    assert Run(g, k, v.items[0], p + [Decimal(0)], items[0]) == Silent;
    assert RunTuple(g, k, v, p, items, 2) == Silent;
    assert RunTuple(g, k, v, p, items, 1).errors == [Report(p + ["0"], b, FalseSchema)];
    var all := RunTuple(g, k, v, p, items, 0);
    assert all.errors == [Report(p + ["0"], b, FalseSchema)];
    TupleReportsExact(root, g, k, v, p, items);
    assert (p + ["0"])[|p| + 1..] == [];
    assert !ReportOk(root, all.errors[0]);
  }
}
