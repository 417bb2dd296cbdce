/** Which report comes first, the one that a throwing handler throws and a first-error handler keeps:
    that of the first check that fails, in the order of the checks. */

module ReportOrder {
  import opened Wrappers
  import opened Json
  import opened SchemaGraph
  import opened Evaluation

  ghost predicate Begins(o: Outcome, r: Report) { o.errors != [] && o.errors[0] == r }

  /** The second outcome matters to the first report when the first one has none. */
  lemma BeginsThen(a: Outcome, b: Outcome, r: Report)
    ensures Begins(a, r) ==> Begins(Then(a, b), r)
    ensures a.errors == [] && Begins(b, r) ==> Begins(Then(a, b), r)
    ensures a.errors == [] && b.errors == [] ==> Then(a, b).errors == []
  {
  }

  // ---------------------------------------------------------------- all kinds

  /** The check of the kind comes before the values, these before the logic, and `if` comes last. */
  lemma {:induction false} KindFirst(g: Graph, k: Checks, n: Id, p: Pointer, j: Json, r: Report)
    requires Evaluable(g) && n < |g| && g[n].TypeSchema? && NodeOk(g, n)
    ensures var node, rank := g[n], Rank(g, n);
      var table, values := RunTable(g, k, rank, node.table, p, j), RunValues(node.enumeration, node.constant, p, j);
      var logic := RunLogic(g, k, rank, node.logic, p, j);
      var branches := RunIf(g, k, rank, node.ifSchema, node.thenSchema, node.elseSchema, p, j);
      && (Begins(table, r) ==> Begins(Run(g, k, n, p, j), r))
      && (table.errors == [] && Begins(values, r) ==> Begins(Run(g, k, n, p, j), r))
      && (table.errors == [] && values.errors == [] && Begins(logic, r) ==> Begins(Run(g, k, n, p, j), r))
      && (table.errors == [] && values.errors == [] && logic.errors == [] && Begins(branches, r)
          ==> Begins(Run(g, k, n, p, j), r))
  {
    var node, rank := g[n], Rank(g, n);
    FourBegin(RunTable(g, k, rank, node.table, p, j), RunValues(node.enumeration, node.constant, p, j),
              RunLogic(g, k, rank, node.logic, p, j),
              RunIf(g, k, rank, node.ifSchema, node.thenSchema, node.elseSchema, p, j), r);
  }

  lemma FourBegin(a: Outcome, b: Outcome, c: Outcome, d: Outcome, r: Report)
    ensures var o := Then(Then(a, b), Then(c, d));
      && (Begins(a, r) ==> Begins(o, r))
      && (a.errors == [] && Begins(b, r) ==> Begins(o, r))
      && (a.errors == [] && b.errors == [] && Begins(c, r) ==> Begins(o, r))
      && (a.errors == [] && b.errors == [] && c.errors == [] && Begins(d, r) ==> Begins(o, r))
  {
  }

  /** A value that is not listed is reported as such, before one that is not the constant. */
  lemma {:induction false} ValuesFirst(enumeration: Option<seq<Json>>, constant: Option<Json>, p: Pointer, j: Json)
    ensures enumeration.Some? && (forall i | 0 <= i < |enumeration.value| :: !JsonEq(j, enumeration.value[i])) ==>
      Begins(RunValues(enumeration, constant, p, j), Report(p, j, NotInEnum))
    ensures ((enumeration.None? || exists i | 0 <= i < |enumeration.value| :: JsonEq(j, enumeration.value[i]))
             && constant.Some? && !JsonEq(constant.value, j)) ==>
      Begins(RunValues(enumeration, constant, p, j), Report(p, j, NotConst))
  {
  }

  // ---------------------------------------------------------------- objects

  /** Too many members, too few, a missing one: in this order, before anything about a member. */
  lemma PresenceFirst(v: ObjectRules, p: Pointer, members: seq<Member>)
    ensures var j, o := Object(members), RunPresence(v, p, members);
      var many := v.maxProperties.Some? && |members| > v.maxProperties.value;
      var few := v.minProperties.Some? && |members| < v.minProperties.value;
      && (many ==> Begins(o, Report(p, j, TooManyProperties)))
      && (!many && few ==> Begins(o, Report(p, j, TooFewProperties)))
      && (forall i | 0 <= i < |v.required| && !many && !few && FirstMissing(v.required, members, i) ::
            Begins(o, Report(p, j, MissingProperty(v.required[i]))))
  {
    var j := Object(members);
    var many := FailIf(v.maxProperties.Some? && |members| > v.maxProperties.value, p, j, TooManyProperties);
    var few := FailIf(v.minProperties.Some? && |members| < v.minProperties.value, p, j, TooFewProperties);
    forall i | 0 <= i < |v.required| && FirstMissing(v.required, members, i)
      ensures Begins(RunRequired(v.required, false, p, members), Report(p, j, MissingProperty(v.required[i])))
    {
      MissingFirst(v.required, false, p, members, i);
    }
  }

  ghost predicate FirstMissing(names: seq<string>, members: seq<Member>, i: nat) {
    i < |names| && !Has(members, names[i]) && forall h | 0 <= h < i :: Has(members, names[h])
  }

  lemma {:induction false} MissingFirst(names: seq<string>, dependency: bool, p: Pointer, members: seq<Member>, i: nat)
    requires FirstMissing(names, members, i)
    ensures Begins(RunRequired(names, dependency, p, members), Report(p, Object(members),
      if dependency then MissingDependency(names[i]) else MissingProperty(names[i])))
    decreases i
  {
    if i > 0 {
      assert FirstMissing(names[1..], members, i - 1);
      MissingFirst(names[1..], dependency, p, members, i - 1);
    }
  }

  /** After that the members in order, then the defaults, then the dependencies. */
  lemma {:induction false} MembersFirst(g: Graph, k: Checks, r: nat, v: ObjectRules, p: Pointer, members: seq<Member>,
        first: Report)
    requires Evaluable(g) && ObjectWithin(g, v) && DependenciesBelow(g, r, v.dependencies)
    ensures var presence, each := RunPresence(v, p, members), RunMembers(g, k, v, p, members, 0);
      var defaults := RunDefaults(g, v.properties, p, members);
      var dependencies := RunDependencies(g, k, r, v.dependencies, p, members);
      var o := RunObject(g, k, r, v, p, members);
      && (Begins(presence, first) ==> Begins(o, first))
      && (presence.errors == [] && Begins(each, first) ==> Begins(o, first))
      && (presence.errors == [] && each.errors == [] && Begins(defaults, first) ==> Begins(o, first))
      && (presence.errors == [] && each.errors == [] && defaults.errors == [] && Begins(dependencies, first)
          ==> Begins(o, first))
  {
    var presence, each := RunPresence(v, p, members), RunMembers(g, k, v, p, members, 0);
    var defaults := RunDefaults(g, v.properties, p, members);
    var dependencies := RunDependencies(g, k, r, v.dependencies, p, members);
    NestedBegin(presence, each, defaults, dependencies, first);
    assert RunObject(g, k, r, v, p, members) == Then(presence, Then(Then(each, defaults), dependencies));
  }

  lemma NestedBegin(a: Outcome, b: Outcome, c: Outcome, d: Outcome, r: Report)
    ensures var o := Then(a, Then(Then(b, c), d));
      && (Begins(a, r) ==> Begins(o, r))
      && (a.errors == [] && Begins(b, r) ==> Begins(o, r))
      && (a.errors == [] && b.errors == [] && Begins(c, r) ==> Begins(o, r))
      && (a.errors == [] && b.errors == [] && c.errors == [] && Begins(d, r) ==> Begins(o, r))
  {
  }

  lemma {:induction false} MemberFirst(g: Graph, k: Checks, v: ObjectRules, p: Pointer, members: seq<Member>,
        from: nat, h: nat, first: Report)
    requires Evaluable(g) && ObjectWithin(g, v) && from <= h < |members|
    requires forall i | from <= i < h :: Quiet(g, k, v, p, members, i)
    requires Begins(RunMember(g, k, v, p, members, members[h]), first)
    ensures Begins(RunMembers(g, k, v, p, members, from), first)
    decreases h - from
  {
    if from < h {
      assert Quiet(g, k, v, p, members, from);
      MemberFirst(g, k, v, p, members, from + 1, h, first);
      BeginsThen(RunMember(g, k, v, p, members, members[from]), RunMembers(g, k, v, p, members, from + 1), first);
    } else {
      BeginsThen(RunMember(g, k, v, p, members, members[h]), RunMembers(g, k, v, p, members, h + 1), first);
    }
  }

  /** Nothing is reported about this member. */
  ghost predicate Quiet(g: Graph, k: Checks, v: ObjectRules, p: Pointer, members: seq<Member>, i: nat)
    requires Evaluable(g) && ObjectWithin(g, v) && i < |members|
  {
    RunMember(g, k, v, p, members, members[i]).errors == []
  }

  /** Of one member: its name, the property listed under it, the patterns, additional properties. */
  lemma {:induction false} NameFirst(g: Graph, k: Checks, v: ObjectRules, p: Pointer, members: seq<Member>, h: nat,
        first: Report)
    requires Evaluable(g) && ObjectWithin(g, v) && h < |members|
    ensures var m := members[h];
      var name := if v.propertyNames.Some? then Run(g, k, v.propertyNames.value, p, String(m.key)) else Silent;
      var listed, patterns := RunListed(g, k, v, p, m), RunPatterns(g, k, v.patternProperties, p, m);
      var additional := RunAdditional(g, k, v, p, members, m);
      var o := RunMember(g, k, v, p, members, m);
      && (Begins(name, first) ==> Begins(o, first))
      && (name.errors == [] && Begins(listed, first) ==> Begins(o, first))
      && (name.errors == [] && listed.errors == [] && Begins(patterns, first) ==> Begins(o, first))
      && (name.errors == [] && listed.errors == [] && patterns.errors == [] && Begins(additional, first)
          ==> Begins(o, first))
  {
    var m := members[h];
    FourBegin(if v.propertyNames.Some? then Run(g, k, v.propertyNames.value, p, String(m.key)) else Silent,
              RunListed(g, k, v, p, m), RunPatterns(g, k, v.patternProperties, p, m),
              RunAdditional(g, k, v, p, members, m), first);
  }

  // ---------------------------------------------------------------- arrays

  /** Too many elements, too few, repeated ones, then the elements, and `contains` last. */
  lemma {:induction false} CountsFirst(g: Graph, k: Checks, v: ArrayRules, p: Pointer, items: seq<Json>, first: Report)
    requires Evaluable(g) && ArrayWithin(g, v)
    ensures var j, o := Array(items), RunArray(g, k, v, p, items);
      var many := v.maxItems.Some? && |items| > v.maxItems.value;
      var few := v.minItems.Some? && |items| < v.minItems.value;
      var unique := if v.uniqueItems then RunUnique(p, items, 0) else Silent;
      var elements := if v.itemsSchema.Some? then RunItems(g, k, v.itemsSchema.value, p, items, 0)
        else RunTuple(g, k, v, p, items, 0);
      var contains := if v.contains.Some? then RunContains(g, k, v.contains.value, p, items, 0) else Silent;
      && (many ==> Begins(o, Report(p, j, TooManyItems)))
      && (!many && few ==> Begins(o, Report(p, j, TooFewItems)))
      && (!many && !few && Begins(unique, first) ==> Begins(o, first))
      && (!many && !few && unique.errors == [] && Begins(elements, first) ==> Begins(o, first))
      && (!many && !few && unique.errors == [] && elements.errors == [] && Begins(contains, first) ==> Begins(o, first))
  {
    var j := Array(items);
    var unique := if v.uniqueItems then RunUnique(p, items, 0) else Silent;
    var elements := if v.itemsSchema.Some? then RunItems(g, k, v.itemsSchema.value, p, items, 0)
      else RunTuple(g, k, v, p, items, 0);
    var contains := if v.contains.Some? then RunContains(g, k, v.contains.value, p, items, 0) else Silent;
    var many := FailIf(v.maxItems.Some? && |items| > v.maxItems.value, p, j, TooManyItems);
    var few := FailIf(v.minItems.Some? && |items| < v.minItems.value, p, j, TooFewItems);
    FiveBegin(many, few, unique, elements, contains, Report(p, j, TooManyItems));
    FiveBegin(many, few, unique, elements, contains, Report(p, j, TooFewItems));
    FiveBegin(many, few, unique, elements, contains, first);
    assert RunCounts(v, p, items) == Then(Then(many, few), unique);
    assert RunElements(g, k, v, p, items) == Then(elements, contains);
    assert RunArray(g, k, v, p, items) == Then(RunCounts(v, p, items), RunElements(g, k, v, p, items));
  }

  lemma FiveBegin(a: Outcome, b: Outcome, c: Outcome, d: Outcome, e: Outcome, r: Report)
    ensures var o := Then(Then(Then(a, b), c), Then(d, e));
      && (Begins(a, r) ==> Begins(o, r))
      && (a.errors == [] && Begins(b, r) ==> Begins(o, r))
      && (a.errors == [] && b.errors == [] && Begins(c, r) ==> Begins(o, r))
      && (a.errors == [] && b.errors == [] && c.errors == [] && Begins(d, r) ==> Begins(o, r))
      && (a.errors == [] && b.errors == [] && c.errors == [] && d.errors == [] && Begins(e, r) ==> Begins(o, r))
  {
  }

  /** The first element about which something is reported. */
  lemma {:induction false} ElementFirst(g: Graph, k: Checks, s: Id, p: Pointer, items: seq<Json>, from: nat, h: nat,
        first: Report)
    requires Evaluable(g) && s < |g| && from <= h < |items|
    requires forall i | from <= i < h :: QuietElement(g, k, s, p, items, i)
    requires Begins(Run(g, k, s, p + [Decimal(h)], items[h]), first)
    ensures Begins(RunItems(g, k, s, p, items, from), first)
    decreases h - from
  {
    if from < h {
      assert QuietElement(g, k, s, p, items, from);
      ElementFirst(g, k, s, p, items, from + 1, h, first);
      BeginsThen(Run(g, k, s, p + [Decimal(from)], items[from]), RunItems(g, k, s, p, items, from + 1), first);
    } else {
      BeginsThen(Run(g, k, s, p + [Decimal(h)], items[h]), RunItems(g, k, s, p, items, h + 1), first);
    }
  }

  ghost predicate QuietElement(g: Graph, k: Checks, s: Id, p: Pointer, items: seq<Json>, i: nat)
    requires Evaluable(g) && s < |g| && i < |items|
  {
    Run(g, k, s, p + [Decimal(i)], items[i]).errors == []
  }
}
