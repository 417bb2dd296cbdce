/** The messages of reports: what each says is true of the instance that is reported with it. */

module Messages {
  import opened Wrappers
  import opened Json
  import opened SchemaGraph
  import opened Evaluation

  /** What a message says of an instance. */
  ghost predicate Tells(k: Checks, j: Json, m: Message)
    decreases m
  {
    match m
    case AllOfFailed(inner) => Tells(k, j, inner)
    case AdditionalProperty(name, inner) => j.Object? && Has(j.members, name) && exists part :: Tells(k, part, inner)
    case _ => Says(k, j, m)
  }

  ghost predicate Says(k: Checks, j: Json, m: Message) {
    match m
    case TooShort(minLength) => j.String? && CodePoints(j.s) < minLength
    case TooLong(maxLength) => j.String? && CodePoints(j.s) > maxLength
    case PatternMismatch(pattern) => j.String? && !k.matches(pattern, j.s)
    case FormatFailed(what) => j.String? && exists format :: k.formatError(format, j.s) == Some(what)
    case ContentFailed(what) => j.String? && exists e, t :: k.contentError(e, t, j.s) == Some(what)
    case NotMultiple(divisor) => exists x :: IsNumber(j, x) && x != 0.0 && k.violatesMultipleOf(x, divisor)
    case ReachesMaximum(bound) => exists x :: IsNumber(j, x) && x >= bound
    case ExceedsMaximum(bound) => exists x :: IsNumber(j, x) && x > bound
    case ReachesMinimum(bound) => exists x :: IsNumber(j, x) && x <= bound
    case BelowMinimum(bound) => exists x :: IsNumber(j, x) && x < bound
    case TooManyProperties => j.Object?
    case TooFewProperties => j.Object?
    case MissingProperty(name) => j.Object? && !Has(j.members, name)
    case MissingDependency(name) => j.Object? && !Has(j.members, name)
    case TooManyItems => j.Array?
    case TooFewItems => j.Array?
    case NotUnique => j.Array? && exists i, h :: 0 <= i < h < |j.items| && JsonEq(j.items[i], j.items[h])
    case NotContained => j.Array?
    case _ => true
  }

  ghost predicate True(k: Checks, o: Outcome) {
    forall i | 0 <= i < |o.errors| :: Tells(k, o.errors[i].instance, o.errors[i].message)
  }

  lemma TrueThen(k: Checks, a: Outcome, b: Outcome)
    requires True(k, a) && True(k, b)
    ensures True(k, Then(a, b))
  {
    var o := Then(a, b);
    forall i | 0 <= i < |o.errors| ensures Tells(k, o.errors[i].instance, o.errors[i].message) {
      assert o.errors[i] == if i < |a.errors| then a.errors[i] else b.errors[i - |a.errors|];
    }
  }

  lemma TrueFour(k: Checks, a: Outcome, b: Outcome, c: Outcome, d: Outcome)
    requires True(k, a) && True(k, b) && True(k, c) && True(k, d)
    ensures True(k, Then(Then(a, b), Then(c, d)))
  {
    TrueThen(k, a, b);
    TrueThen(k, c, d);
    TrueThen(k, Then(a, b), Then(c, d));
  }

  // ---------------------------------------------------------------- scalars

  lemma NumberTrue(k: Checks, b: Bounds, p: Pointer, j: Json, x: real)
    requires IsNumber(j, x)
    ensures True(k, RunNumber(k, b, p, j, x))
  {
    assert True(k, RunMultiple(k, b, p, j, x));
    assert True(k, RunMaximum(b, p, j, x));
    assert True(k, RunMinimum(b, p, j, x));
    TrueThen(k, RunMultiple(k, b, p, j, x), RunMaximum(b, p, j, x));
    TrueThen(k, Then(RunMultiple(k, b, p, j, x), RunMaximum(b, p, j, x)), RunMinimum(b, p, j, x));
  }

  /** A broken bound is named, and said to be reached when it is exclusive. */
  lemma BoundNamed(b: Bounds, p: Pointer, j: Json, x: real)
    ensures forall m | b.maximum == Some(m) ::
      RunMaximum(b, p, j, x).errors ==
        if b.exclusiveMaximum && x >= m then [Report(p, j, ReachesMaximum(m))]
        else if x > m then [Report(p, j, ExceedsMaximum(m))] else []
    ensures forall m | b.minimum == Some(m) ::
      RunMinimum(b, p, j, x).errors ==
        if b.exclusiveMinimum && x <= m then [Report(p, j, ReachesMinimum(m))]
        else if x < m then [Report(p, j, BelowMinimum(m))] else []
  {
  }

  ghost predicate Reported(o: Outcome, m: Message) {
    exists i | 0 <= i < |o.errors| :: o.errors[i].message == m
  }

  lemma ReportedThen(a: Outcome, b: Outcome, m: Message)
    ensures Reported(Then(a, b), m) <==> Reported(a, m) || Reported(b, m)
  {
    var o := Then(a, b);
    forall i | 0 <= i < |a.errors| ensures o.errors[i] == a.errors[i] {}
    forall i | 0 <= i < |b.errors| ensures o.errors[|a.errors| + i] == b.errors[i] {}
    if Reported(o, m) {
      var i :| 0 <= i < |o.errors| && o.errors[i].message == m;
      if i >= |a.errors| { assert b.errors[i - |a.errors|].message == m; }
    }
  }

  /** Too many and too few are said of what has more or fewer than the limit. */
  lemma ItemsNamed(v: ArrayRules, p: Pointer, items: seq<Json>)
    ensures Reported(RunCounts(v, p, items), TooManyItems) <==> v.maxItems.Some? && |items| > v.maxItems.value
    ensures Reported(RunCounts(v, p, items), TooFewItems) <==> v.minItems.Some? && |items| < v.minItems.value
  {
    var j := Array(items);
    var many := FailIf(v.maxItems.Some? && |items| > v.maxItems.value, p, j, TooManyItems);
    var few := FailIf(v.minItems.Some? && |items| < v.minItems.value, p, j, TooFewItems);
    var unique := if v.uniqueItems then RunUnique(p, items, 0) else Silent;
    OnlyUnique(p, items, 0);
    forall m | m == TooManyItems || m == TooFewItems
      ensures Reported(RunCounts(v, p, items), m) <==> Reported(many, m) || Reported(few, m)
    {
      ReportedThen(many, few, m);
      ReportedThen(Then(many, few), unique, m);
    }
    OneReport(v.maxItems.Some? && |items| > v.maxItems.value, p, j, TooManyItems);
    OneReport(v.minItems.Some? && |items| < v.minItems.value, p, j, TooFewItems);
  }

  lemma OneReport(c: bool, p: Pointer, j: Json, m: Message)
    ensures forall other :: Reported(FailIf(c, p, j, m), other) <==> c && other == m
  {
    if c { assert FailIf(c, p, j, m).errors[0].message == m; }
  }

  lemma {:induction false} OnlyUnique(p: Pointer, items: seq<Json>, i: nat)
    ensures forall m | Reported(RunUnique(p, items, i), m) :: m == NotUnique
    decreases |items| - i
  {
    if i < |items| {
      OnlyUnique(p, items, i + 1);
      var c := FindEqual(items[i + 1..], items[i]) < |items| - i - 1;
      OneReport(c, p, Array(items), NotUnique);
      forall m ensures Reported(RunUnique(p, items, i), m) ==> m == NotUnique {
        ReportedThen(FailIf(c, p, Array(items), NotUnique), RunUnique(p, items, i + 1), m);
      }
    }
  }

  lemma PropertiesNamed(v: ObjectRules, p: Pointer, members: seq<Member>)
    ensures Reported(RunPresence(v, p, members), TooManyProperties)
      <==> v.maxProperties.Some? && |members| > v.maxProperties.value
    ensures Reported(RunPresence(v, p, members), TooFewProperties)
      <==> v.minProperties.Some? && |members| < v.minProperties.value
    ensures forall name ::
      (Reported(RunPresence(v, p, members), MissingProperty(name)) <==> name in v.required && !Has(members, name))
  {
    var j := Object(members);
    var many := FailIf(v.maxProperties.Some? && |members| > v.maxProperties.value, p, j, TooManyProperties);
    var few := FailIf(v.minProperties.Some? && |members| < v.minProperties.value, p, j, TooFewProperties);
    OneReport(v.maxProperties.Some? && |members| > v.maxProperties.value, p, j, TooManyProperties);
    OneReport(v.minProperties.Some? && |members| < v.minProperties.value, p, j, TooFewProperties);
    forall m ensures Reported(RunPresence(v, p, members), m)
      <==> Reported(many, m) || Reported(few, m) || Reported(RunRequired(v.required, false, p, members), m)
    {
      ReportedThen(many, few, m);
      ReportedThen(Then(many, few), RunRequired(v.required, false, p, members), m);
    }
    forall m ensures Reported(RunRequired(v.required, false, p, members), m)
      <==> m.MissingProperty? && m.name in v.required && !Has(members, m.name) {
      MissingNamed(v.required, p, members, m);
    }
  }

  lemma {:induction false} MissingNamed(names: seq<string>, p: Pointer, members: seq<Member>, m: Message)
    ensures Reported(RunRequired(names, false, p, members), m)
      <==> m.MissingProperty? && m.name in names && !Has(members, m.name)
  {
    if names != [] {
      MissingNamed(names[1..], p, members, m);
      OneReport(!Has(members, names[0]), p, Object(members), MissingProperty(names[0]));
      ReportedThen(FailIf(!Has(members, names[0]), p, Object(members), MissingProperty(names[0])),
                   RunRequired(names[1..], false, p, members), m);
    }
  }

  lemma StringTrue(k: Checks, v: StringRules, p: Pointer, s: string)
    ensures True(k, RunString(k, v, p, s))
  {
    assert True(k, RunMinLength(v, p, s)) && True(k, RunMaxLength(v, p, s));
    assert True(k, RunContent(k, v, p, s)) && True(k, RunPattern(k, v, p, s)) && True(k, RunFormat(k, v, p, s));
    TrueThen(k, RunMinLength(v, p, s), RunMaxLength(v, p, s));
    TrueThen(k, RunContent(k, v, p, s), RunPattern(k, v, p, s));
    TrueThen(k, Then(RunContent(k, v, p, s), RunPattern(k, v, p, s)), RunFormat(k, v, p, s));
    TrueThen(k, RunLengths(v, p, s), RunText(k, v, p, s));
  }

  // ---------------------------------------------------------------- schemas

  /** Every report of every validation says what is true of the instance it names. */
  lemma {:induction false} MessagesTrue(g: Graph, k: Checks, n: Id, p: Pointer, j: Json)
    requires Evaluable(g) && n < |g|
    ensures True(k, Run(g, k, n, p, j))
    decreases Size(j), Rank(g, n), 2, 0
  {
    NodeParts(g, n);
    match g[n]
    case BooleanSchema(_) =>
    case Reference(_, _, target) => if target.Some? { MessagesTrue(g, k, target.value, p, j); }
    case TypeSchema(_, _, _, _, _, _, _, _) => NodeTrue(g, k, n, p, j);
  }

  lemma {:induction false} NodeTrue(g: Graph, k: Checks, n: Id, p: Pointer, j: Json)
    requires Evaluable(g) && n < |g| && g[n].TypeSchema? && NodeOk(g, n)
    ensures True(k, Run(g, k, n, p, j))
    decreases Size(j), Rank(g, n), 1, |g[n].logic| + 3
  {
    var node, r := g[n], Rank(g, n);
    TableTrue(g, k, r, node.table, p, j);
    LogicTrue(g, k, r, node.logic, p, j);
    IfTrue(g, k, r, node.ifSchema, node.thenSchema, node.elseSchema, p, j);
    assert True(k, RunValues(node.enumeration, node.constant, p, j));
    TrueFour(k, RunTable(g, k, r, node.table, p, j), RunValues(node.enumeration, node.constant, p, j),
             RunLogic(g, k, r, node.logic, p, j),
             RunIf(g, k, r, node.ifSchema, node.thenSchema, node.elseSchema, p, j));
  }

  lemma {:induction false} TableTrue(g: Graph, k: Checks, r: nat, table: TypeTable, p: Pointer, j: Json)
    requires Evaluable(g) && TableOk(g, r, table)
    ensures True(k, RunTable(g, k, r, table, p, j))
    decreases Size(j), r, 1, 2
  {
    match j
    case Integer(x) => if table.integerType.Some? { NumberTrue(k, table.integerType.value, p, j, x as real); }
    case Unsigned(x) => if table.unsignedType.Some? { NumberTrue(k, table.unsignedType.value, p, j, x as real); }
    case Float(x) => if table.floatType.Some? { NumberTrue(k, table.floatType.value, p, j, x); }
    case String(s) => if table.stringType.Some? { StringTrue(k, table.stringType.value, p, s); }
    case Array(items) => if table.arrayType.Some? { ArrayTrue(g, k, table.arrayType.value, p, items); }
    case Object(members) => if table.objectType.Some? { ObjectTrue(g, k, r, table.objectType.value, p, members); }
    case _ =>
  }

  lemma {:induction false} LogicTrue(g: Graph, k: Checks, r: nat, logic: seq<Logic>, p: Pointer, j: Json)
    requires Evaluable(g) && AllLogicBelow(g, r, logic)
    ensures True(k, RunLogic(g, k, r, logic, p, j))
    decreases Size(j), r, 1, |logic|
  {
    if logic != [] {
      OneLogicTrue(g, k, r, logic[0], p, j);
      LogicTrue(g, k, r, logic[1..], p, j);
      TrueThen(k, RunOneLogic(g, k, r, logic[0], p, j), RunLogic(g, k, r, logic[1..], p, j));
    }
  }

  lemma {:induction false} OneLogicTrue(g: Graph, k: Checks, r: nat, logic: Logic, p: Pointer, j: Json)
    requires Evaluable(g) && LogicBelow(g, r, logic)
    ensures True(k, RunOneLogic(g, k, r, logic, p, j))
    decreases Size(j), r, 1, 0
  {
    match logic
    case Not(s) =>
      var sub := Run(g, k, s, p, j);
      TrueThen(k, Outcome([], sub.patch), FailIf(sub.errors == [], p, j, NotSucceeded));
    case Combine(c, ss) => CombinationTrue(g, k, r, c, ss, p, j, 0);
  }

  lemma {:induction false} CombinationTrue(g: Graph, k: Checks, r: nat, c: Combination, ss: seq<Id>, p: Pointer,
        j: Json, count: nat)
    requires Evaluable(g) && AllBelow(g, r, ss)
    ensures True(k, RunCombination(g, k, r, c, ss, p, j, count))
    decreases Size(j), r, 0, |ss|
  {
    if ss != [] {
      var rest := ss[1..];
      assert AllBelow(g, r, rest);
      MessagesTrue(g, k, ss[0], p, j);
      var sub := Run(g, k, ss[0], p, j);
      var count' := if sub.errors == [] then count + 1 else count;
      var complete := Completion(c, sub.errors, count', p, j);
      CompletionTrue(k, c, sub, count', p, j);
      if complete.None? {
        CombinationTrue(g, k, r, c, rest, p, j, count');
        TrueThen(k, Outcome([], sub.patch), RunCombination(g, k, r, c, rest, p, j, count'));
      }
    }
  }

  lemma CompletionTrue(k: Checks, c: Combination, sub: Outcome, count: nat, p: Pointer, j: Json)
    requires True(k, sub)
    ensures var complete := Completion(c, sub.errors, count, p, j);
      complete.Some? ==> True(k, Then(Outcome([], sub.patch), complete.value))
  {
    var complete := Completion(c, sub.errors, count, p, j);
    if complete.Some? { TrueThen(k, Outcome([], sub.patch), complete.value); }
  }

  lemma {:induction false} IfTrue(g: Graph, k: Checks, r: nat, i: Option<Id>, t: Option<Id>, e: Option<Id>,
        p: Pointer, j: Json)
    requires Evaluable(g) && OptionBelow(g, r, i) && OptionBelow(g, r, t) && OptionBelow(g, r, e)
    ensures True(k, RunIf(g, k, r, i, t, e, p, j))
    decreases Size(j), r, 1, 0
  {
    if i.Some? {
      var sub := Run(g, k, i.value, p, j);
      var branch := if sub.errors == [] then t else e;
      if branch.Some? { MessagesTrue(g, k, branch.value, p, j); }
      TrueThen(k, Outcome([], sub.patch), if branch.Some? then Run(g, k, branch.value, p, j) else Silent);
    }
  }

  // ---------------------------------------------------------------- objects

  lemma {:induction false} RequiredTrue(k: Checks, names: seq<string>, dependency: bool, p: Pointer,
        members: seq<Member>)
    ensures True(k, RunRequired(names, dependency, p, members))
  {
    if names != [] {
      var m := if dependency then MissingDependency(names[0]) else MissingProperty(names[0]);
      RequiredTrue(k, names[1..], dependency, p, members);
      TrueThen(k, FailIf(!Has(members, names[0]), p, Object(members), m),
               RunRequired(names[1..], dependency, p, members));
    }
  }

  lemma {:induction false} DefaultsTrue(g: Graph, k: Checks, properties: seq<Property>, p: Pointer,
        members: seq<Member>)
    requires Evaluable(g) && PropertiesWithin(g, properties)
    ensures True(k, RunDefaults(g, properties, p, members))
  {
    if properties != [] {
      DefaultsTrue(g, k, properties[1..], p, members);
      TrueThen(k, RunDefault(g, properties[0], p, members), RunDefaults(g, properties[1..], p, members));
    }
  }

  lemma PresenceTrue(k: Checks, v: ObjectRules, p: Pointer, members: seq<Member>)
    ensures True(k, RunPresence(v, p, members))
  {
    var j := Object(members);
    var many := FailIf(v.maxProperties.Some? && |members| > v.maxProperties.value, p, j, TooManyProperties);
    var few := FailIf(v.minProperties.Some? && |members| < v.minProperties.value, p, j, TooFewProperties);
    TrueThen(k, many, few);
    RequiredTrue(k, v.required, false, p, members);
    TrueThen(k, Then(many, few), RunRequired(v.required, false, p, members));
  }

  lemma {:induction false} ObjectTrue(g: Graph, k: Checks, r: nat, v: ObjectRules, p: Pointer, members: seq<Member>)
    requires Evaluable(g) && ObjectWithin(g, v) && DependenciesBelow(g, r, v.dependencies)
    ensures True(k, RunObject(g, k, r, v, p, members))
    decreases Size(Object(members)), r, 1, 0
  {
    PresenceTrue(k, v, p, members);
    MembersTrue(g, k, v, p, members, 0);
    DefaultsTrue(g, k, v.properties, p, members);
    DependenciesTrue(g, k, r, v.dependencies, p, members);
    var a, b := RunMembers(g, k, v, p, members, 0), RunDefaults(g, v.properties, p, members);
    var c := RunDependencies(g, k, r, v.dependencies, p, members);
    TrueThen(k, a, b);
    TrueThen(k, Then(a, b), c);
    TrueThen(k, RunPresence(v, p, members), Then(Then(a, b), c));
  }

  lemma {:induction false} DependenciesTrue(g: Graph, k: Checks, r: nat, d: seq<Dependency>, p: Pointer,
        members: seq<Member>)
    requires Evaluable(g) && DependenciesBelow(g, r, d)
    ensures True(k, RunDependencies(g, k, r, d, p, members))
    decreases Size(Object(members)), r, 0, |d|
  {
    if d != [] {
      if Has(members, d[0].name) {
        match d[0].requirement {
          case Names(names) => RequiredTrue(k, names, true, p + [d[0].name], members);
          case Schema(s) => MessagesTrue(g, k, s, p + [d[0].name], Object(members));
        }
      }
      DependenciesTrue(g, k, r, d[1..], p, members);
      TrueThen(k, RunDependency(g, k, r, d[0], p, members), RunDependencies(g, k, r, d[1..], p, members));
    }
  }

  lemma {:induction false} MembersTrue(g: Graph, k: Checks, v: ObjectRules, p: Pointer, members: seq<Member>, i: nat)
    requires Evaluable(g) && ObjectWithin(g, v) && i <= |members|
    ensures True(k, RunMembers(g, k, v, p, members, i))
    decreases Size(Object(members)), 0, 0, |members| - i
  {
    if i < |members| {
      HasAt(members, i);
      MemberTrue(g, k, v, p, members, members[i]);
      MembersTrue(g, k, v, p, members, i + 1);
      TrueThen(k, RunMember(g, k, v, p, members, members[i]), RunMembers(g, k, v, p, members, i + 1));
    }
  }

  lemma {:induction false} MemberTrue(g: Graph, k: Checks, v: ObjectRules, p: Pointer, members: seq<Member>, m: Member)
    requires Evaluable(g) && ObjectWithin(g, v) && Has(members, m.key)
    requires Size(m.value) + 1 < Size(Object(members))
    ensures True(k, RunMember(g, k, v, p, members, m))
    decreases Size(m.value) + 1, 0, 0, 0
  {
    if v.propertyNames.Some? { MessagesTrue(g, k, v.propertyNames.value, p, String(m.key)); }
    ListedTrue(g, k, v, p, m);
    PatternsTrue(g, k, v.patternProperties, p, m);
    AdditionalTrue(g, k, v, p, members, m);
    TrueFour(k, if v.propertyNames.Some? then Run(g, k, v.propertyNames.value, p, String(m.key)) else Silent,
             RunListed(g, k, v, p, m), RunPatterns(g, k, v.patternProperties, p, m),
             RunAdditional(g, k, v, p, members, m));
  }

  lemma {:induction false} ListedTrue(g: Graph, k: Checks, v: ObjectRules, p: Pointer, m: Member)
    requires Evaluable(g) && PropertiesWithin(g, v.properties)
    ensures True(k, RunListed(g, k, v, p, m))
    decreases Size(m.value), Top(g), 0, 0
  {
    var i := FindProperty(v.properties, m.key);
    if i < |v.properties| {
      TopIsAbove(g, v.properties[i].schema);
      MessagesTrue(g, k, v.properties[i].schema, p + [m.key], m.value);
    }
  }

  lemma {:induction false} PatternsTrue(g: Graph, k: Checks, patterns: seq<Property>, p: Pointer, m: Member)
    requires Evaluable(g) && PropertiesWithin(g, patterns)
    ensures True(k, RunPatterns(g, k, patterns, p, m))
    decreases Size(m.value), Top(g), 0, |patterns|
  {
    if patterns != [] {
      TopIsAbove(g, patterns[0].schema);
      MessagesTrue(g, k, patterns[0].schema, p + [m.key], m.value);
      PatternsTrue(g, k, patterns[1..], p, m);
      TrueThen(k, if k.matches(patterns[0].name, m.key) then Run(g, k, patterns[0].schema, p + [m.key], m.value)
               else Silent, RunPatterns(g, k, patterns[1..], p, m));
    }
  }

  lemma {:induction false} AdditionalTrue(g: Graph, k: Checks, v: ObjectRules, p: Pointer, members: seq<Member>,
        m: Member)
    requires Evaluable(g) && OptionWithin(g, v.additionalProperties) && Has(members, m.key)
    ensures True(k, RunAdditional(g, k, v, p, members, m))
    decreases Size(m.value), Top(g), 0, 0
  {
    if v.additionalProperties.Some? {
      TopIsAbove(g, v.additionalProperties.value);
      MessagesTrue(g, k, v.additionalProperties.value, p + [m.key], m.value);
    }
  }

  // ---------------------------------------------------------------- arrays

  lemma {:induction false} UniqueTrue(k: Checks, p: Pointer, items: seq<Json>, i: nat)
    ensures True(k, RunUnique(p, items, i))
    decreases |items| - i
  {
    if i < |items| {
      var h := FindEqual(items[i + 1..], items[i]);
      UniqueTrue(k, p, items, i + 1);
      var one := FailIf(h < |items| - i - 1, p, Array(items), NotUnique);
      if h < |items| - i - 1 { assert JsonEq(items[i], items[i + 1 + h]); }
      TrueThen(k, one, RunUnique(p, items, i + 1));
    }
  }

  lemma CountsTrue(k: Checks, v: ArrayRules, p: Pointer, items: seq<Json>)
    ensures True(k, RunCounts(v, p, items))
  {
    var j := Array(items);
    var many := FailIf(v.maxItems.Some? && |items| > v.maxItems.value, p, j, TooManyItems);
    var few := FailIf(v.minItems.Some? && |items| < v.minItems.value, p, j, TooFewItems);
    TrueThen(k, many, few);
    UniqueTrue(k, p, items, 0);
    TrueThen(k, Then(many, few), if v.uniqueItems then RunUnique(p, items, 0) else Silent);
  }

  lemma {:induction false} ArrayTrue(g: Graph, k: Checks, v: ArrayRules, p: Pointer, items: seq<Json>)
    requires Evaluable(g) && ArrayWithin(g, v)
    ensures True(k, RunArray(g, k, v, p, items))
    decreases Size(Array(items)), 0, 1, 1
  {
    CountsTrue(k, v, p, items);
    if v.itemsSchema.Some? {
      ItemsTrue(g, k, v.itemsSchema.value, p, items, 0);
    } else {
      TupleTrue(g, k, v, p, items, 0);
    }
    if v.contains.Some? { ContainsTrue(g, k, v.contains.value, p, items, 0); }
    TrueThen(k, if v.itemsSchema.Some? then RunItems(g, k, v.itemsSchema.value, p, items, 0)
             else RunTuple(g, k, v, p, items, 0),
             if v.contains.Some? then RunContains(g, k, v.contains.value, p, items, 0) else Silent);
    TrueThen(k, RunCounts(v, p, items), RunElements(g, k, v, p, items));
  }

  lemma {:induction false} ItemsTrue(g: Graph, k: Checks, s: Id, p: Pointer, items: seq<Json>, i: nat)
    requires Evaluable(g) && s < |g| && i <= |items|
    ensures True(k, RunItems(g, k, s, p, items, i))
    decreases Size(Array(items)), 0, 0, |items| - i
  {
    if i < |items| {
      MessagesTrue(g, k, s, p + [Decimal(i)], items[i]);
      ItemsTrue(g, k, s, p, items, i + 1);
      TrueThen(k, Run(g, k, s, p + [Decimal(i)], items[i]), RunItems(g, k, s, p, items, i + 1));
    }
  }

  lemma {:induction false} TupleTrue(g: Graph, k: Checks, v: ArrayRules, p: Pointer, items: seq<Json>, i: nat)
    requires Evaluable(g) && ArrayWithin(g, v) && i <= |items|
    ensures True(k, RunTuple(g, k, v, p, items, i))
    decreases Size(Array(items)), 0, 0, |items| - i
  {
    if i < |items| && TupleSchema(v, i).Some? {
      MessagesTrue(g, k, TupleSchema(v, i).value, p + [Decimal(0)], items[i]);
      TupleTrue(g, k, v, p, items, i + 1);
      TrueThen(k, Run(g, k, TupleSchema(v, i).value, p + [Decimal(0)], items[i]), RunTuple(g, k, v, p, items, i + 1));
    }
  }

  lemma {:induction false} ContainsTrue(g: Graph, k: Checks, s: Id, p: Pointer, items: seq<Json>, i: nat)
    requires Evaluable(g) && s < |g| && i <= |items|
    ensures True(k, RunContains(g, k, s, p, items, i))
    decreases |items| - i
  {
    if i < |items| {
      var sub := Run(g, k, s, p, items[i]);
      ContainsTrue(g, k, s, p, items, i + 1);
      TrueThen(k, Outcome([], sub.patch), if sub.errors == [] then Silent else RunContains(g, k, s, p, items, i + 1));
    }
  }

  // ---------------------------------------------------------------- what combinations report

  /** How many of the schemas report nothing. */
  ghost function Successes(g: Graph, k: Checks, ss: seq<Id>, p: Pointer, j: Json): nat
    requires Evaluable(g) && forall i | 0 <= i < |ss| :: ss[i] < |g|
  {
    if ss == [] then 0 else (if Run(g, k, ss[0], p, j).errors == [] then 1 else 0) + Successes(g, k, ss[1..], p, j)
  }

  lemma {:induction false} SuccessesBound(g: Graph, k: Checks, ss: seq<Id>, p: Pointer, j: Json)
    requires Evaluable(g) && forall i | 0 <= i < |ss| :: ss[i] < |g|
    ensures Successes(g, k, ss, p, j) <= |ss|
  {
    if ss != [] { SuccessesBound(g, k, ss[1..], p, j); }
  }

  /** `anyOf` reports, about the instance, that no schema succeeds, and nothing else; `oneOf` also
      that several do. */
  lemma {:induction false} CombinationNamed(g: Graph, k: Checks, r: nat, c: Combination, ss: seq<Id>, p: Pointer,
        j: Json, count: nat)
    requires Evaluable(g) && AllBelow(g, r, ss) && !c.AllOf? && count <= 1 && (c.AnyOf? ==> count == 0)
    ensures RunCombination(g, k, r, c, ss, p, j, count).errors ==
      var all := count + Successes(g, k, ss, p, j);
      if all == 0 then [Report(p, j, NoneSucceeded)]
      else if all >= 2 && c.OneOf? then [Report(p, j, SeveralSucceeded)] else []
    decreases |ss|
  {
    if ss != [] {
      var sub := Run(g, k, ss[0], p, j);
      var next := if sub.errors == [] then count + 1 else count;
      assert AllBelow(g, r, ss[1..]);
      if Completion(c, sub.errors, next, p, j).None? { CombinationNamed(g, k, r, c, ss[1..], p, j, next); }
    }
  }

  /** `allOf` reports the first report of the first schema that has one, where that schema reports it. */
  lemma {:induction false} AllOfNamed(g: Graph, k: Checks, r: nat, ss: seq<Id>, p: Pointer, j: Json, count: nat, i: nat)
    requires Evaluable(g) && AllBelow(g, r, ss) && i < |ss| && ss[i] < |g| && Run(g, k, ss[i], p, j).errors != []
    requires forall h | 0 <= h < i :: ss[h] < |g| && Run(g, k, ss[h], p, j).errors == []
    ensures var first := Run(g, k, ss[i], p, j).errors[0];
      RunCombination(g, k, r, AllOf, ss, p, j, count).errors
        == [Report(first.pointer, first.instance, AllOfFailed(first.message))]
    decreases i
  {
    if i == 0 {
      AllOfFails(g, k, r, ss, p, j, count);
    } else {
      AllOfGoesOn(g, k, r, ss, p, j, count);
      forall h | 0 <= h < i - 1 ensures ss[1..][h] < |g| && Run(g, k, ss[1..][h], p, j).errors == [] {
        assert ss[1..][h] == ss[h + 1];
      }
      assert ss[1..][i - 1] == ss[i];
      AllOfNamed(g, k, r, ss[1..], p, j, count + 1, i - 1);
    }
  }

  lemma {:induction false} AllOfGoesOn(g: Graph, k: Checks, r: nat, ss: seq<Id>, p: Pointer, j: Json, count: nat)
    requires Evaluable(g) && AllBelow(g, r, ss) && ss != [] && ss[0] < |g| && Run(g, k, ss[0], p, j).errors == []
    ensures AllBelow(g, r, ss[1..])
    ensures RunCombination(g, k, r, AllOf, ss, p, j, count).errors
      == RunCombination(g, k, r, AllOf, ss[1..], p, j, count + 1).errors
  {
    assert AllBelow(g, r, ss[1..]);
    assert Completion(AllOf, Run(g, k, ss[0], p, j).errors, count + 1, p, j).None?;
  }

  lemma {:induction false} AllOfFails(g: Graph, k: Checks, r: nat, ss: seq<Id>, p: Pointer, j: Json, count: nat)
    requires Evaluable(g) && AllBelow(g, r, ss) && ss != [] && ss[0] < |g| && Run(g, k, ss[0], p, j).errors != []
    ensures var first := Run(g, k, ss[0], p, j).errors[0];
      RunCombination(g, k, r, AllOf, ss, p, j, count).errors
        == [Report(first.pointer, first.instance, AllOfFailed(first.message))]
  {
  }

  /** A member that no property and no pattern names is reported as one of its object, with the first
      message of the schema for such members. */
  lemma {:induction false} AdditionalNamed(g: Graph, k: Checks, v: ObjectRules, p: Pointer, members: seq<Member>,
        m: Member, s: Id)
    requires Evaluable(g) && v.additionalProperties == Some(s) && s < |g|
    requires Run(g, k, s, p + [m.key], m.value).errors != []
    requires forall i | 0 <= i < |v.properties| :: v.properties[i].name != m.key
    requires forall i | 0 <= i < |v.patternProperties| :: !k.matches(v.patternProperties[i].name, m.key)
    ensures RunAdditional(g, k, v, p, members, m).errors ==
      [Report(p, Object(members), AdditionalProperty(m.key, Run(g, k, s, p + [m.key], m.value).errors[0].message))]
  {
  }

  /** The elements at or behind a place that equal a later one. */
  ghost function Repeated(items: seq<Json>, from: nat): set<nat> {
    set i: nat | from <= i < |items| && RepeatedAt(items, i)
  }

  ghost predicate RepeatedAt(items: seq<Json>, i: nat)
    requires i < |items|
  {
    exists h | i < h < |items| :: JsonEq(items[i], items[h])
  }

  /** There is one report for each element that equals a later one. */
  lemma {:induction false} RepeatsCounted(p: Pointer, items: seq<Json>, from: nat)
    requires from <= |items|
    ensures |RunUnique(p, items, from).errors| == |Repeated(items, from)|
    decreases |items| - from
  {
    if from < |items| {
      RepeatsCounted(p, items, from + 1);
      RepeatedHere(items, from);
      RepeatedNext(items, from);
    } else {
      assert Repeated(items, from) == {};
    }
  }

  lemma RepeatedHere(items: seq<Json>, i: nat)
    requires i < |items|
    ensures RepeatedAt(items, i) <==> FindEqual(items[i + 1..], items[i]) < |items| - i - 1
  {
    var rest := items[i + 1..];
    var h := FindEqual(rest, items[i]);
    assert forall n | i < n < |items| :: items[n] == rest[n - i - 1];
    if h < |rest| { assert JsonEq(items[i], items[i + 1 + h]); }
  }

  lemma RepeatedNext(items: seq<Json>, i: nat)
    requires i < |items|
    ensures |Repeated(items, i)| == |Repeated(items, i + 1)| + (if RepeatedAt(items, i) then 1 else 0)
  {
    assert Repeated(items, i) == Repeated(items, i + 1) + (if RepeatedAt(items, i) then {i} else {});
  }
}
