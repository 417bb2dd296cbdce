/** Defaults: which ones a validation adds to its patch, and that applying the patch puts them
    where they are missing. */

module Defaults {
  import opened Wrappers
  import opened Json
  import opened SchemaGraph
  import opened Evaluation
  import opened Pointers
  import opened DefaultPatch
  import Meaning

  // ---------------------------------------------------------------- the default of a schema

  /** The default written beside a schema, null when there is none. */
  function Own(node: Node): Json { if node.BooleanSchema? then Null else node.defaultValue }

  /** The schema, or else the first one behind its references, has this default. */
  ghost predicate Gives(g: Graph, n: Id, d: Json) {
    exists k: nat :: GivesAfter(g, n, k, d)
  }

  ghost predicate GivesAfter(g: Graph, n: Id, k: nat, d: Json) {
    && (forall h: nat | h < k :: Hops(g, n, h).Some? && Bare(g, Hops(g, n, h).value))
    && Hops(g, n, k).Some? && Hops(g, n, k).value < |g| && Own(g[Hops(g, n, k).value]) == d
  }

  /** A reference without a default beside it. */
  ghost predicate Bare(g: Graph, n: Id) { n < |g| && g[n].Reference? && g[n].defaultValue.Null? }

  lemma {:induction false} DefaultExactly(g: Graph, n: Id, d: Json)
    requires Evaluable(g) && n < |g| && !d.Null?
    ensures DefaultValue(g, n) == Value(d) <==> Gives(g, n, d)
    decreases Rank(g, n)
  {
    if Bare(g, n) && g[n].target.Some? {
      var m := g[n].target.value;
      assert m in SameInstanceIds(g[n]);
      EdgeRank(g, n, m);
      DefaultExactly(g, m, d);
      BehindReference(g, n, m, d);
    } else if Own(g[n]) == d {
      assert GivesAfter(g, n, 0, d);
    } else {
      forall k: nat ensures !GivesAfter(g, n, k, d) {
        assert Hops(g, n, 0) == Some(n);
        if k > 0 && !Bare(g, n) { assert !(Hops(g, n, 0).Some? && Bare(g, Hops(g, n, 0).value)); }
      }
    }
  }

  lemma {:induction false} BehindReference(g: Graph, n: Id, m: Id, d: Json)
    requires Bare(g, n) && g[n].target == Some(m) && !d.Null?
    ensures Gives(g, n, d) <==> Gives(g, m, d)
  {
    forall k: nat ensures GivesAfter(g, n, k + 1, d) <==> GivesAfter(g, m, k, d) { OneHopOn(g, n, m, k, d); }
    if Gives(g, n, d) {
      var k: nat :| GivesAfter(g, n, k, d);
      assert k > 0;
      assert GivesAfter(g, n, k - 1 + 1, d) && GivesAfter(g, m, k - 1, d);
    }
    if Gives(g, m, d) {
      var k: nat :| GivesAfter(g, m, k, d);
      assert GivesAfter(g, n, k + 1, d);
    }
  }

  lemma {:induction false} OneHopOn(g: Graph, n: Id, m: Id, k: nat, d: Json)
    requires Bare(g, n) && g[n].target == Some(m)
    ensures GivesAfter(g, n, k + 1, d) <==> GivesAfter(g, m, k, d)
  {
    assert forall h: nat :: Hops(g, n, h + 1) == Hops(g, m, h);
    if GivesAfter(g, n, k + 1, d) {
      forall h: nat | h < k ensures Hops(g, m, h).Some? && Bare(g, Hops(g, m, h).value) {
        assert h + 1 < k + 1 && Hops(g, n, h + 1) == Hops(g, m, h);
      }
    }
    if GivesAfter(g, m, k, d) {
      forall h: nat | h < k + 1 ensures Hops(g, n, h).Some? && Bare(g, Hops(g, n, h).value) {
        if h > 0 { assert Hops(g, n, h - 1 + 1) == Hops(g, m, h - 1); }
      }
    }
  }

  // ---------------------------------------------------------------- what is added

  /** The operation adds the default of a listed property that the object lacks. */
  ghost predicate Due(g: Graph, property: Property, p: Pointer, members: seq<Member>, op: Addition) {
    && !Has(members, property.name) && op.pointer == p + [property.name]
    && !op.value.Null? && Gives(g, property.schema, op.value)
  }

  ghost predicate DueSomewhere(g: Graph, properties: seq<Property>, p: Pointer, members: seq<Member>, op: Addition) {
    exists i | 0 <= i < |properties| :: Due(g, properties[i], p, members, op)
  }

  lemma OneDefault(g: Graph, property: Property, p: Pointer, members: seq<Member>, op: Addition)
    requires Evaluable(g) && property.schema < |g|
    ensures multiset(RunDefault(g, property, p, members).patch)[op] == if Due(g, property, p, members, op) then 1 else 0
  {
    if !op.value.Null? { DefaultExactly(g, property.schema, op.value); }
    var o := RunDefault(g, property, p, members).patch;
    assert o == [] || o == [o[0]];
  }

  /** The defaults added are exactly those of the listed properties the object lacks, each once. */
  lemma {:induction false} DefaultsExactly(g: Graph, properties: seq<Property>, p: Pointer, members: seq<Member>,
        op: Addition)
    requires Evaluable(g) && PropertiesWithin(g, properties) && DistinctNames(properties)
    ensures multiset(RunDefaults(g, properties, p, members).patch)[op]
      == if DueSomewhere(g, properties, p, members, op) then 1 else 0
  {
    if properties != [] {
      var rest := properties[1..];
      OneDefault(g, properties[0], p, members, op);
      DefaultsExactly(g, rest, p, members, op);
      DueCons(g, properties, p, members, op);
    }
  }

  lemma DueCons(g: Graph, properties: seq<Property>, p: Pointer, members: seq<Member>, op: Addition)
    requires properties != [] && DistinctNames(properties)
    ensures DueSomewhere(g, properties, p, members, op) <==>
      Due(g, properties[0], p, members, op) || DueSomewhere(g, properties[1..], p, members, op)
    ensures !(Due(g, properties[0], p, members, op) && DueSomewhere(g, properties[1..], p, members, op))
  {
    var rest := properties[1..];
    if DueSomewhere(g, properties, p, members, op) {
      var i :| 0 <= i < |properties| && Due(g, properties[i], p, members, op);
      if i > 0 { assert rest[i - 1] == properties[i]; }
    }
    forall i | 0 <= i < |rest| && Due(g, rest[i], p, members, op)
      ensures Due(g, properties[i + 1], p, members, op) && !Due(g, properties[0], p, members, op)
    {
      assert (p + [rest[i].name])[|p|] == rest[i].name && (p + [properties[0].name])[|p|] == properties[0].name;
    }
  }

  /** An object validated by a schema gets every default that is due, in one stretch of the patch
      that holds nothing else; before it stands what its members add, behind it its dependencies. */
  lemma ObjectPatch(g: Graph, k: Checks, n: Id, p: Pointer, members: seq<Member>)
      returns (before: seq<Addition>, after: seq<Addition>)
    requires Evaluable(g) && n < |g| && g[n].TypeSchema? && g[n].table.objectType.Some?
    ensures PropertiesWithin(g, g[n].table.objectType.value.properties)
    ensures Run(g, k, n, p, Object(members)).patch
      == before + RunDefaults(g, g[n].table.objectType.value.properties, p, members).patch + after
  {
    NodeParts(g, n);
    var r, v := Rank(g, n), g[n].table.objectType.value;
    var rest := TablePatch(g, k, n, p, Object(members));
    ObjectPatchIn(g, k, r, v, p, members);
    var early, late := Then(RunPresence(v, p, members), RunMembers(g, k, v, p, members, 0)).patch,
      RunDependencies(g, k, r, v.dependencies, p, members).patch;
    before, after := early, late + rest;
    Regroup(early, RunDefaults(g, v.properties, p, members).patch, late, rest);
  }

  lemma Regroup<T>(a: seq<T>, b: seq<T>, c: seq<T>, d: seq<T>)
    ensures a + b + c + d == a + b + (c + d)
  {
  }

  lemma TablePatch(g: Graph, k: Checks, n: Id, p: Pointer, j: Json) returns (rest: seq<Addition>)
    requires Evaluable(g) && n < |g| && g[n].TypeSchema?
    ensures TableOk(g, Rank(g, n), g[n].table)
    ensures Run(g, k, n, p, j).patch == RunTable(g, k, Rank(g, n), g[n].table, p, j).patch + rest
  {
    NodeParts(g, n);
    var node, r := g[n], Rank(g, n);
    var others := Then(RunLogic(g, k, r, node.logic, p, j),
                       RunIf(g, k, r, node.ifSchema, node.thenSchema, node.elseSchema, p, j));
    rest := PatchBehind(RunTable(g, k, r, node.table, p, j), RunValues(node.enumeration, node.constant, p, j), others);
  }

  lemma PatchBehind(a: Outcome, b: Outcome, c: Outcome) returns (rest: seq<Addition>)
    ensures Then(Then(a, b), c).patch == a.patch + rest
  {
    rest := b.patch + c.patch;
    assert a.patch + b.patch + c.patch == a.patch + (b.patch + c.patch);
  }

  lemma {:induction false} ObjectPatchIn(g: Graph, k: Checks, r: nat, v: ObjectRules, p: Pointer, members: seq<Member>)
    requires Evaluable(g) && ObjectWithin(g, v) && DependenciesBelow(g, r, v.dependencies)
    ensures RunObject(g, k, r, v, p, members).patch
      == Then(RunPresence(v, p, members), RunMembers(g, k, v, p, members, 0)).patch
         + RunDefaults(g, v.properties, p, members).patch + RunDependencies(g, k, r, v.dependencies, p, members).patch
  {
    var a, b := RunPresence(v, p, members).patch, RunMembers(g, k, v, p, members, 0).patch;
    var c, d := RunDefaults(g, v.properties, p, members).patch,
      RunDependencies(g, k, r, v.dependencies, p, members).patch;
    assert a + ((b + c) + d) == (a + b) + c + d;
  }

  /** A listed property that an object lacks has its default added, whatever else the object holds. */
  lemma {:induction false} DefaultAdded(g: Graph, k: Checks, n: Id, p: Pointer, members: seq<Member>, i: nat, d: Json)
    requires Evaluable(g) && Meaning.PropertiesAreMaps(g) && n < |g| && g[n].TypeSchema?
    requires g[n].table.objectType.Some? && i < |g[n].table.objectType.value.properties|
    requires var property := g[n].table.objectType.value.properties[i];
      !Has(members, property.name) && !d.Null? && Gives(g, property.schema, d)
    ensures Addition(p + [g[n].table.objectType.value.properties[i].name], d) in Run(g, k, n, p, Object(members)).patch
  {
    var properties := g[n].table.objectType.value.properties;
    var op := Addition(p + [properties[i].name], d);
    var before, after := ObjectPatch(g, k, n, p, members);
    assert ListsEachNameOnce(g[n]);
    DefaultsExactly(g, properties, p, members, op);
    assert Due(g, properties[i], p, members, op);
    assert op in RunDefaults(g, properties, p, members).patch;
  }

  /** What a listed member of an object adds to the patch, the object adds. */
  lemma {:induction false} MemberPatch(g: Graph, k: Checks, n: Id, p: Pointer, members: seq<Member>, h: nat, i: nat,
        op: Addition)
    requires Evaluable(g) && Meaning.PropertiesAreMaps(g) && n < |g| && g[n].TypeSchema?
    requires g[n].table.objectType.Some? && h < |members| && i < |g[n].table.objectType.value.properties|
    requires var property := g[n].table.objectType.value.properties[i];
      && property.name == members[h].key && property.schema < |g|
      && op in Run(g, k, property.schema, p + [members[h].key], members[h].value).patch
    ensures op in Run(g, k, n, p, Object(members)).patch
  {
    NodeParts(g, n);
    var r, v := Rank(g, n), g[n].table.objectType.value;
    assert ListsEachNameOnce(g[n]);
    ListedPatch(g, k, v, p, members[h], i, op);
    assert op in RunMember(g, k, v, p, members, members[h]).patch;
    MembersPatch(g, k, v, p, members, 0, h, op);
    ObjectPatchIn(g, k, r, v, p, members);
    var rest := TablePatch(g, k, n, p, Object(members));
    assert op in RunTable(g, k, r, g[n].table, p, Object(members)).patch;
  }

  lemma {:induction false} ListedPatch(g: Graph, k: Checks, v: ObjectRules, p: Pointer, m: Member, i: nat, op: Addition)
    requires Evaluable(g) && PropertiesWithin(g, v.properties) && DistinctNames(v.properties)
    requires i < |v.properties| && v.properties[i].name == m.key
    requires op in Run(g, k, v.properties[i].schema, p + [m.key], m.value).patch
    ensures op in RunListed(g, k, v, p, m).patch
  {
    var f := FindProperty(v.properties, m.key);
    assert f == i;
  }

  lemma {:induction false} MembersPatch(g: Graph, k: Checks, v: ObjectRules, p: Pointer, members: seq<Member>,
        from: nat,
        h: nat, op: Addition)
    requires Evaluable(g) && ObjectWithin(g, v) && from <= h < |members|
    requires op in RunMember(g, k, v, p, members, members[h]).patch
    ensures op in RunMembers(g, k, v, p, members, from).patch
    decreases h - from
  {
    if from < h { MembersPatch(g, k, v, p, members, from + 1, h, op); }
  }

  // ---------------------------------------------------------------- the patch applied

  lemma {:induction false} AddedThere(a: Json, b: Json, q: Pointer, d: Json)
    requires WellFormed(a) && Extends(a, b) && AdditionOk(a, Addition(q, d))
    ensures Add(b, q, d).Some? && At(Add(b, q, d).value, q) == Found(d)
    decreases |q|
  {
    AddExtends(a, b, q, d);
    if |q| == 1 {
      assert q[..0] == [] && q[1..] == [];
      PutGet(b.members, q[0], d, q[0]);
    } else {
      var c, e := InnerAddition(a, b, q, d);
      AddedThere(c, e, q[1..], d);
      ReplacedChild(b, q[0], Add(e, q[1..], d).value, q[0]);
    }
  }

  /** The addition, seen from one step further down. */
  lemma InnerAddition(a: Json, b: Json, q: Pointer, d: Json) returns (c: Json, e: Json)
    requires WellFormed(a) && Extends(a, b) && AdditionOk(a, Addition(q, d)) && |q| > 1
    ensures Child(a, q[0]) == Found(c) && Child(b, q[0]) == Found(e) && WellFormed(c) && Extends(c, e)
    ensures AdditionOk(c, Addition(q[1..], d))
    ensures Add(e, q[1..], d).Some? && Add(b, q, d) == Some(ReplaceChild(b, q[0], Add(e, q[1..], d).value))
  {
    var rest := q[1..];
    assert q[..|q| - 1][0] == q[0] && q[..|q| - 1][1..] == rest[..|rest| - 1];
    ChildExtends(a, b, q[0]);
    PartWellFormed(a, [q[0]]);
    assert At(a, [q[0]]) == Child(a, q[0]);
    c, e := Child(a, q[0]).json, Child(b, q[0]).json;
    AddExtends(c, e, rest, d);
  }

  lemma ReplacedChild(b: Json, token: string, child: Json, other: string)
    requires Child(b, token).Found? && (b.Object? || other == token)
    ensures Child(ReplaceChild(b, token, child), token) == Found(child)
    ensures other != token ==> Child(ReplaceChild(b, token, child), other) == Child(b, other)
  {
    if b.Object? { PutGet(b.members, token, child, other); }
  }

  /** An addition leaves what is addressed elsewhere. */
  lemma {:induction false} AddedElsewhere(a: Json, b: Json, q: Pointer, d: Json, o: Pointer, x: Json)
    requires WellFormed(a) && Extends(a, b) && AdditionOk(a, Addition(q, d)) && AdditionOk(a, Addition(o, x)) && q != o
    ensures Add(b, q, d).Some? && At(Add(b, q, d).value, o) == At(b, o)
    decreases |q|
  {
    AddExtends(a, b, q, d);
    if |q| == 1 {
      OtherFirst(a, q, d, o, x);
      PutGet(b.members, q[0], d, o[0]);
    } else {
      var c, e := InnerAddition(a, b, q, d);
      if |o| == 1 { OtherFirst(a, o, x, q, d); }
      if o[0] == q[0] {
        var c', e' := InnerAddition(a, b, o, x);
        assert q[1..] != o[1..] by { assert q == [q[0]] + q[1..] && o == [o[0]] + o[1..]; }
        AddedElsewhere(c, e, q[1..], d, o[1..], x);
        ReplacedChild(b, q[0], Add(e, q[1..], d).value, q[0]);
      } else {
        ElsewhereChild(b, q[0], Add(e, q[1..], d).value, o);
      }
    }
  }

  lemma {:induction false} ElsewhereChild(b: Json, token: string, child: Json, o: Pointer)
    requires Child(b, token).Found? && o != [] && o[0] != token
    ensures At(ReplaceChild(b, token, child), o) == At(b, o)
  {
    match b
    case Object(members) => PutGet(members, token, child, o[0]);
    case Array(items) => OtherItem(items, token, child, o[0]);
  }

  lemma {:induction false} OtherItem(items: seq<Json>, token: string, child: Json, other: string)
    requires ItemAt(items, token).Found? && other != token
    ensures ItemAt(items[DigitsValue(token) := child], other) == ItemAt(items, other)
  {
    Numeral(items, token);
    if ItemAt(items, other).Found? { Numeral(items, other); }
  }

  lemma {:induction false} Numeral(items: seq<Json>, token: string)
    requires ItemAt(items, token).Found?
    ensures forall i | 0 <= i < |token| :: '0' <= token[i] <= '9'
    ensures Decimal(DigitsValue(token)) == token && ItemAt(items, token) == Found(items[DigitsValue(token)])
  {
    DecimalOfValue(token);
  }

  /** An absent member of the whole object is on the way to nothing else that can be added. */
  lemma OtherFirst(a: Json, q: Pointer, d: Json, o: Pointer, x: Json)
    requires |q| == 1 && AdditionOk(a, Addition(q, d)) && AdditionOk(a, Addition(o, x)) && q != o
    ensures o[0] != q[0]
  {
    assert q[..0] == [];
    if |o| == 1 {
      assert q == [q[0]] && o == [o[0]];
    } else {
      assert o[..|o| - 1][0] == o[0];
    }
  }

  /** Every operation of a patch that only adds what the instance lacks is found done at the end,
      unless another one of the patch is addressed to the same member. */
  lemma {:induction false} PatchedHas(a: Json, b: Json, patch: seq<Addition>, q: Pointer, d: Json)
    requires WellFormed(a) && Extends(a, b) && (forall i | 0 <= i < |patch| :: AdditionOk(a, patch[i]))
    requires AdditionOk(a, Addition(q, d)) && forall i | 0 <= i < |patch| && patch[i].pointer == q ::
      patch[i].value == d
    requires At(b, q) == Found(d) || Addition(q, d) in patch
    ensures ApplyAll(b, patch).Some? && At(ApplyAll(b, patch).value, q) == Found(d)
    decreases |patch|
  {
    if patch != [] {
      var first := patch[0];
      AddExtends(a, b, first.pointer, first.value);
      if first.pointer == q { AddedThere(a, b, q, d); } else { AddedElsewhere(a, b, first.pointer, first.value, q, d); }
      PatchedHas(a, Add(b, first.pointer, first.value).value, patch[1..], q, d);
    }
  }

  /** For schemas whose operations all point right: after the patch the missing property of an
      object anywhere in the instance has its default, when no other default is added there. */
  lemma {:induction false} DefaultInPlace(g: Graph, k: Checks, n: Id, root: Json, q: Pointer, d: Json)
    requires Evaluable(g) && Straight(g, Patch) && n < |g| && WellFormed(root)
    requires Addition(q, d) in Run(g, k, n, [], root).patch
    requires forall x | Addition(q, x) in Run(g, k, n, [], root).patch :: x == d
    ensures var patched := ApplyAll(root, Run(g, k, n, [], root).patch);
      patched.Some? && At(patched.value, q) == Found(d)
  {
    var patch := Run(g, k, n, [], root).patch;
    WholeInstanceSound(g, k, n, root, Patch);
    ExtendsItself(root);
    forall i | 0 <= i < |patch| && patch[i].pointer == q ensures patch[i].value == d {
      assert Addition(q, patch[i].value) in patch;
    }
    PatchedHas(root, root, patch, q, d);
  }
}
