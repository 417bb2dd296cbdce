/** Which documents are behind the stored schemas: the sub-schemas of a document, how each is found
    under its URIs, and what compiling keeps about them. */

module Library {
  import opened Wrappers
  import opened Json
  import opened SchemaGraph
  import opened Documents
  import opened Registry
  import opened Denotation
  import U = Uri

  // ---------------------------------------------------------------- sub-schemas

  /** The keywords whose values hold sub-schemas, as compilation takes them together. */
  datatype Group = Definitions | Logics | Ifs | Objects | Arrays

  /** The sub-schema under a keyword. */
  ghost predicate OnePart(members: seq<Member>, key: string, keys: seq<string>, sub: Json) {
    Has(members, key) && keys == [key] && sub == Get(members, key)
  }

  /** One of the sub-schemas listed by key. */
  ghost predicate KeyedPart(members: seq<Member>, key: string, prefix: seq<string>, keys: seq<string>, sub: Json) {
    Has(members, key)
    && var d := Get(members, key);
       exists i | 0 <= i < |Values(d)| :: keys == prefix + [Keys(d)[i]] && sub == Values(d)[i]
  }

  /** One of the sub-schemas numbered in order. */
  ghost predicate NumberedPart(members: seq<Member>, key: string, keys: seq<string>, sub: Json) {
    Has(members, key)
    && var d := Get(members, key);
       exists i | 0 <= i < |Values(d)| :: keys == [key, Decimal(i)] && sub == Values(d)[i]
  }

  /** A sub-schema, and the tokens its URIs get. */
  ghost predicate InGroup(members: seq<Member>, g: Group, keys: seq<string>, sub: Json) {
    match g
    case Definitions => KeyedPart(members, "definitions", ["definitions"], keys, sub)
    case Logics => LogicPart(members, keys, sub)
    case Ifs => IfPart(members, keys, sub)
    case Objects => ObjectPart(members, keys, sub)
    case Arrays => ItemsPart(members, keys, sub) || OnePart(members, "contains", keys, sub)
  }

  ghost predicate LogicPart(members: seq<Member>, keys: seq<string>, sub: Json) {
    || OnePart(members, "not", keys, sub) || NumberedPart(members, "allOf", keys, sub)
    || NumberedPart(members, "anyOf", keys, sub) || NumberedPart(members, "oneOf", keys, sub)
  }

  ghost predicate IfPart(members: seq<Member>, keys: seq<string>, sub: Json) {
    && Has(members, "if") && (Has(members, "then") || Has(members, "else"))
    && (OnePart(members, "if", keys, sub) || OnePart(members, "then", keys, sub) || OnePart(members, "else", keys, sub))
  }

  ghost predicate ObjectPart(members: seq<Member>, keys: seq<string>, sub: Json) {
    || KeyedPart(members, "properties", ["properties"], keys, sub)
    || KeyedPart(members, "patternProperties", [], keys, sub)
    || OnePart(members, "additionalProperties", keys, sub)
    || (KeyedPart(members, "dependencies", ["dependencies"], keys, sub) && !sub.Array?)
    || OnePart(members, "propertyNames", keys, sub)
  }

  ghost predicate ItemsPart(members: seq<Member>, keys: seq<string>, sub: Json) {
    && Has(members, "items")
    && if Get(members, "items").Array?
       then NumberedPart(members, "items", keys, sub) || OnePart(members, "additionalItems", keys, sub)
       else (Get(members, "items").Object? || Get(members, "items").Boolean?) && OnePart(members, "items", keys, sub)
  }

  /** Beside `$ref` only `definitions` count; the keywords of objects and arrays count when the
      type is listed. */
  ghost predicate Counts(members: seq<Member>, g: Group) {
    match g
    case Definitions => true
    case Logics => !Has(members, "$ref")
    case Ifs => !Has(members, "$ref")
    case Objects => !Has(members, "$ref") && "object" in TypesListed(members)
    case Arrays => !Has(members, "$ref") && "array" in TypesListed(members)
  }

  /** A sub-schema that compiling the document compiles. */
  ghost predicate Part(members: seq<Member>, keys: seq<string>, sub: Json) {
    exists g: Group :: Counts(members, g) && InGroup(members, g, keys, sub)
  }

  lemma {:induction false} PartSmaller(members: seq<Member>, keys: seq<string>, sub: Json)
    requires Part(members, keys, sub)
    ensures Size(sub) < Size(Object(members))
  {
    var g: Group :| Counts(members, g) && InGroup(members, g, keys, sub);
    GroupStands(members, g, keys, sub);
    var key :| Has(members, key) && (sub == Get(members, key) || sub in Values(Get(members, key)));
    assert Size(Opt(members, key).value) < Size(Object(members));
  }

  /** The sub-schema stands under some keyword. */
  ghost predicate StandsUnder(members: seq<Member>, sub: Json) {
    exists key :: Has(members, key) && (sub == Get(members, key) || sub in Values(Get(members, key)))
  }

  lemma KeyedStands(members: seq<Member>, key: string, prefix: seq<string>, keys: seq<string>, sub: Json)
    ensures KeyedPart(members, key, prefix, keys, sub) ==> StandsUnder(members, sub)
    ensures NumberedPart(members, key, keys, sub) ==> StandsUnder(members, sub)
    ensures OnePart(members, key, keys, sub) ==> StandsUnder(members, sub)
  {
  }

  lemma GroupStands(members: seq<Member>, g: Group, keys: seq<string>, sub: Json)
    requires InGroup(members, g, keys, sub)
    ensures StandsUnder(members, sub)
  {
    match g
    case Definitions => KeyedStands(members, "definitions", ["definitions"], keys, sub);
    case Logics => LogicStands(members, keys, sub);
    case Ifs =>
      KeyedStands(members, "if", [], keys, sub);
      KeyedStands(members, "then", [], keys, sub);
      KeyedStands(members, "else", [], keys, sub);
    case Objects => ObjectStands(members, keys, sub);
    case Arrays =>
      KeyedStands(members, "items", [], keys, sub);
      KeyedStands(members, "additionalItems", [], keys, sub);
      KeyedStands(members, "contains", [], keys, sub);
  }

  lemma LogicStands(members: seq<Member>, keys: seq<string>, sub: Json)
    requires LogicPart(members, keys, sub)
    ensures StandsUnder(members, sub)
  {
    KeyedStands(members, "not", [], keys, sub);
    KeyedStands(members, "allOf", [], keys, sub);
    KeyedStands(members, "anyOf", [], keys, sub);
    KeyedStands(members, "oneOf", [], keys, sub);
  }

  lemma ObjectStands(members: seq<Member>, keys: seq<string>, sub: Json)
    requires ObjectPart(members, keys, sub)
    ensures StandsUnder(members, sub)
  {
    KeyedStands(members, "properties", ["properties"], keys, sub);
    KeyedStands(members, "patternProperties", [], keys, sub);
    KeyedStands(members, "additionalProperties", [], keys, sub);
    KeyedStands(members, "dependencies", ["dependencies"], keys, sub);
    KeyedStands(members, "propertyNames", [], keys, sub);
  }

  /** A schema is a document, in some scope, or a sub-schema at any depth. */
  ghost predicate Descends(scope: seq<U.Uri>, doc: Json, subScope: seq<U.Uri>, sub: Json)
    decreases Size(doc)
  {
    || (subScope == scope && sub == doc)
    || (doc.Object? && IdScope(scope, doc.members).Ok?
        && (exists keys, next ::
              && Part(doc.members, keys, next)
              && (PartSmaller(doc.members, keys, next);
                  Descends(Scope(IdScope(scope, doc.members).value, keys), next, subScope, sub))))
  }

  ghost predicate Under(seed: Seed, scope: seq<U.Uri>, doc: Json) {
    Descends(seed.scope, seed.doc, scope, doc)
  }

  /** One level further down. */
  lemma {:induction false} DescendsOn(scope: seq<U.Uri>, doc: Json, subScope: seq<U.Uri>, members: seq<Member>,
        keys: seq<string>, sub: Json)
    requires Descends(scope, doc, subScope, Object(members)) && IdScope(subScope, members).Ok?
    requires Part(members, keys, sub)
    ensures Descends(scope, doc, Scope(IdScope(subScope, members).value, keys), sub)
    decreases Size(doc)
  {
    var last := Scope(IdScope(subScope, members).value, keys);
    if subScope == scope && Object(members) == doc {
      DescendsBy(scope, doc, keys, sub, last, sub);
    } else {
      var us := IdScope(scope, doc.members).value;
      var ks, next :| Part(doc.members, ks, next)
          && (PartSmaller(doc.members, ks, next); Descends(Scope(us, ks), next, subScope, Object(members)));
      PartSmaller(doc.members, ks, next);
      DescendsOn(Scope(us, ks), next, subScope, members, keys, sub);
      DescendsBy(scope, doc, ks, next, last, sub);
    }
  }

  lemma {:induction false} DescendsBy(scope: seq<U.Uri>, doc: Json, keys: seq<string>, next: Json, subScope: seq<U.Uri>,
        sub: Json)
    requires doc.Object? && IdScope(scope, doc.members).Ok? && Part(doc.members, keys, next)
    requires Descends(Scope(IdScope(scope, doc.members).value, keys), next, subScope, sub)
    ensures Descends(scope, doc, subScope, sub)
  {
  }

  // ---------------------------------------------------------------- where sub-schemas are found

  ghost predicate SomePlaced(reg: Registry, scope: seq<U.Uri>, doc: Json) {
    exists n :: Placed(reg, scope, doc, n)
  }

  lemma {:induction false} OnePlaced(reg: Registry, us: seq<U.Uri>, members: seq<Member>, key: string, o: Option<Id>,
        keys: seq<string>,
        sub: Json)
    requires OptionDenotes(reg, us, members, key, o) && OnePart(members, key, keys, sub)
    ensures SomePlaced(reg, Scope(us, keys), sub)
  {
    assert Placed(reg, Scope(us, [key]), Get(members, key), o.value);
  }

  lemma {:induction false} NumberedPlaced(reg: Registry, us: seq<U.Uri>, members: seq<Member>, key: string,
        ids: seq<Id>,
        keys: seq<string>, sub: Json)
    requires Has(members, key) && Size(Get(members, key)) < Size(Object(members))
    requires EntriesDenote(reg, us, members, Numbered(Get(members, key), key), ids)
    requires NumberedPart(members, key, keys, sub)
    ensures SomePlaced(reg, Scope(us, keys), sub)
  {
    var d := Get(members, key);
    var i :| 0 <= i < |Values(d)| && keys == [key, Decimal(i)] && sub == Values(d)[i];
    assert Numbered(d, key)[i].doc == sub && Numbered(d, key)[i].keys == keys;
    assert Placed(reg, Scope(us, keys), sub, ids[i]);
  }

  lemma {:induction false} PropertyPlaced(reg: Registry, us: seq<U.Uri>, members: seq<Member>, key: string,
        prefix: seq<string>,
        ps: seq<Property>, keys: seq<string>, sub: Json)
    requires PropertiesDenote(reg, us, members, key, prefix, ps) && KeyedPart(members, key, prefix, keys, sub)
    ensures SomePlaced(reg, Scope(us, keys), sub)
  {
    var d := Get(members, key);
    var i :| 0 <= i < |Values(d)| && keys == prefix + [Keys(d)[i]] && sub == Values(d)[i];
    assert Placed(reg, Scope(us, prefix + [Keys(d)[i]]), Values(d)[i], ps[i].schema);
  }

  lemma {:induction false} DependencyPlaced(reg: Registry, us: seq<U.Uri>, members: seq<Member>, ds: seq<Dependency>,
        keys: seq<string>,
        sub: Json)
    requires DependenciesDenote(reg, us, members, ds) && !sub.Array?
    requires KeyedPart(members, "dependencies", ["dependencies"], keys, sub)
    ensures SomePlaced(reg, Scope(us, keys), sub)
  {
    var d := Get(members, "dependencies");
    var i :| 0 <= i < |Values(d)| && keys == ["dependencies"] + [Keys(d)[i]] && sub == Values(d)[i];
    assert RequirementDenotes(reg, us, members, Keys(d)[i], Values(d)[i], ds[i].requirement);
    assert ["dependencies"] + [Keys(d)[i]] == ["dependencies", Keys(d)[i]];
    assert Placed(reg, Scope(us, keys), sub, ds[i].requirement.schema);
  }

  lemma {:induction false} DefinitionPlaced(reg: Registry, us: seq<U.Uri>, members: seq<Member>, keys: seq<string>,
        sub: Json)
    requires DefinitionsDenote(reg, us, members) && KeyedPart(members, "definitions", ["definitions"], keys, sub)
    ensures SomePlaced(reg, Scope(us, keys), sub)
  {
    var d := Get(members, "definitions");
    var entries := Keyed(d, ["definitions"], "definitions");
    var ids: seq<Id> :| EntriesDenote(reg, us, members, entries, ids);
    var i :| 0 <= i < |Values(d)| && keys == ["definitions"] + [Keys(d)[i]] && sub == Values(d)[i];
    assert Placed(reg, Scope(us, entries[i].keys), entries[i].doc, ids[i]);
  }

  lemma {:induction false} ObjectPlaced(reg: Registry, us: seq<U.Uri>, members: seq<Member>, v: ObjectRules,
        keys: seq<string>, sub: Json)
    requires ObjectDenotes(reg, us, members, true, v) && ObjectPart(members, keys, sub)
    ensures SomePlaced(reg, Scope(us, keys), sub)
  {
    if KeyedPart(members, "properties", ["properties"], keys, sub) {
      PropertyPlaced(reg, us, members, "properties", ["properties"], v.properties, keys, sub);
    } else if KeyedPart(members, "patternProperties", [], keys, sub) {
      PropertyPlaced(reg, us, members, "patternProperties", [], v.patternProperties, keys, sub);
    } else if OnePart(members, "additionalProperties", keys, sub) {
      OnePlaced(reg, us, members, "additionalProperties", v.additionalProperties, keys, sub);
    } else if OnePart(members, "propertyNames", keys, sub) {
      OnePlaced(reg, us, members, "propertyNames", v.propertyNames, keys, sub);
    } else {
      DependencyPlaced(reg, us, members, v.dependencies, keys, sub);
    }
  }

  lemma {:induction false} ArrayPlaced(reg: Registry, us: seq<U.Uri>, members: seq<Member>, v: ArrayRules,
        keys: seq<string>, sub: Json)
    requires ArrayDenotes(reg, us, members, true, v) && InGroup(members, Arrays, keys, sub)
    ensures SomePlaced(reg, Scope(us, keys), sub)
  {
    if OnePart(members, "contains", keys, sub) {
      OnePlaced(reg, us, members, "contains", v.contains, keys, sub);
    } else if !Get(members, "items").Array? {
      OnePlaced(reg, us, members, "items", v.itemsSchema, keys, sub);
    } else if OnePart(members, "additionalItems", keys, sub) {
      OnePlaced(reg, us, members, "additionalItems", v.additionalItems, keys, sub);
    } else {
      assert Size(Opt(members, "items").value) < Size(Object(members));
      NumberedPlaced(reg, us, members, "items", v.items, keys, sub);
    }
  }

  lemma {:induction false} ListedAt(members: seq<Member>, keys: seq<string>, key: string)
    requires key in keys && Has(members, key)
    ensures key in LogicListed(members, keys)
  {
    if keys[0] != key { ListedAt(members, keys[1..], key); }
  }

  lemma {:induction false} LogicPlaced(reg: Registry, us: seq<U.Uri>, members: seq<Member>, logic: seq<Logic>,
        keys: seq<string>,
        sub: Json)
    requires LogicDenotes(reg, us, members, LogicListed(members, LOGIC_KEYS), logic) && LogicPart(members, keys, sub)
    ensures SomePlaced(reg, Scope(us, keys), sub)
  {
    var key := if OnePart(members, "not", keys, sub) then "not" else if NumberedPart(members, "allOf", keys, sub)
      then "allOf" else if NumberedPart(members, "anyOf", keys, sub) then "anyOf" else "oneOf";
    assert LOGIC_KEYS[0] == "not" && LOGIC_KEYS[1] == "allOf" && LOGIC_KEYS[2] == "anyOf" && LOGIC_KEYS[3] == "oneOf";
    ListedAt(members, LOGIC_KEYS, key);
    var l :| 0 <= l < |LogicListed(members, LOGIC_KEYS)| && LogicListed(members, LOGIC_KEYS)[l] == key;
    OneLogicPlaced(reg, us, members, key, logic[l], keys, sub);
  }

  lemma {:induction false} OneLogicPlaced(reg: Registry, us: seq<U.Uri>, members: seq<Member>, key: string,
        logic: Logic,
        keys: seq<string>, sub: Json)
    requires OneLogicDenotes(reg, us, members, key, logic)
    requires if key == "not" then OnePart(members, key, keys, sub) else NumberedPart(members, key, keys, sub)
    ensures SomePlaced(reg, Scope(us, keys), sub)
  {
    if key == "not" {
      assert Placed(reg, Scope(us, ["not"]), Get(members, key), logic.subschema);
    } else {
      assert Size(Opt(members, key).value) < Size(Object(members));
      NumberedPlaced(reg, us, members, key, logic.subschemas, keys, sub);
    }
  }

  lemma {:induction false} NodePartPlaced(reg: Registry, us: seq<U.Uri>, members: seq<Member>, node: Node, g: Group,
        keys: seq<string>,
        sub: Json)
    requires node.TypeSchema? && TypeDenotes(reg, us, members, node)
    requires g != Definitions && Counts(members, g) && InGroup(members, g, keys, sub)
    ensures SomePlaced(reg, Scope(us, keys), sub)
  {
    var types := TypesListed(members);
    assert PlainTableDenotes(reg, us, members, types, PlainTable(types, node.table));
    match g {
      case Logics => LogicPlaced(reg, us, members, node.logic, keys, sub);
      case Ifs =>
        if OnePart(members, "if", keys, sub) { OnePlaced(reg, us, members, "if", node.ifSchema, keys, sub); }
        else if OnePart(members, "then", keys, sub) { OnePlaced(reg, us, members, "then", node.thenSchema, keys, sub); }
        else { OnePlaced(reg, us, members, "else", node.elseSchema, keys, sub); }
      case Objects =>
        assert ObjectsDenote(reg, us, members, types, node.table.objectType);
        var v :| ObjectDenotes(reg, us, members, true, v);
        ObjectPlaced(reg, us, members, v, keys, sub);
      case Arrays =>
        assert ArraysDenote(reg, us, members, types, node.table.arrayType);
        var v :| ArrayDenotes(reg, us, members, true, v);
        ArrayPlaced(reg, us, members, v, keys, sub);
    }
  }

  /** Every sub-schema of a compiled document is compiled, and stored under its URIs. */
  lemma {:induction false} PartPlaced(reg: Registry, scope: seq<U.Uri>, members: seq<Member>, n: Id, keys: seq<string>,
        sub: Json)
    requires Denotes(reg, scope, Object(members), n) && Part(members, keys, sub)
    ensures SomePlaced(reg, Scope(IdScope(scope, members).value, keys), sub)
  {
    var us := IdScope(scope, members).value;
    var g: Group :| Counts(members, g) && InGroup(members, g, keys, sub);
    if g == Definitions {
      DefinitionPlaced(reg, us, members, keys, sub);
    } else {
      NodePartPlaced(reg, us, members, reg.nodes[n], g, keys, sub);
    }
  }

  /** The same for sub-schemas at any depth. */
  lemma {:induction false} DescendantPlaced(reg: Registry, scope: seq<U.Uri>, doc: Json, n: Id, subScope: seq<U.Uri>,
        sub: Json)
    requires Placed(reg, scope, doc, n) && Descends(scope, doc, subScope, sub)
    ensures SomePlaced(reg, subScope, sub)
    decreases Size(doc)
  {
    if !(subScope == scope && sub == doc) {
      var us := IdScope(scope, doc.members).value;
      var keys, next :| Part(doc.members, keys, next)
          && (PartSmaller(doc.members, keys, next); Descends(Scope(us, keys), next, subScope, sub));
      PartSmaller(doc.members, keys, next);
      PartPlaced(reg, scope, doc.members, n, keys, next);
      var m :| Placed(reg, Scope(us, keys), next, m);
      DescendantPlaced(reg, Scope(us, keys), next, m, subScope, sub);
    }
  }

  // ---------------------------------------------------------------- the documents behind stored schemas

  /** Nothing is stored under the URI. */
  ghost predicate Free(reg: Registry, key: Key) {
    key.fragment !in File(reg.files, key.location).schemas
  }

  lemma FreeBefore(a: Registry, b: Registry, key: Key)
    requires Grew(a, b) && Free(b, key)
    ensures Free(a, key)
  {
    assert !Free(a, key) ==> Stored(a, key, a.files[key.location].schemas[key.fragment]);
  }

  /** The URI is one of those the document is registered under. */
  ghost predicate Registered(key: Key, scope: seq<U.Uri>, doc: Json) {
    exists i | 0 <= i < |FinalScope(scope, doc)| :: KeyOf(FinalScope(scope, doc)[i]) == key
  }

  /** A `$ref` was resolved before the schema around it was stored. */
  ghost predicate Grounded(reg: Registry, n: Id, scope: seq<U.Uri>, doc: Json, t: nat) {
    doc.Object? && Has(doc.members, "$ref") ==>
      && n < |reg.nodes| && IdScope(scope, doc.members).Ok?
      && RefDenotes(reg, IdScope(scope, doc.members).value, doc.members, n, t)
  }

  ghost predicate SourceOk(reg: Registry, key: Key, n: Id, source: Source) {
    && Denotes(reg, source.scope, source.doc, n) && Registered(key, source.scope, source.doc)
    && source.born < |reg.sources| && Grounded(reg, n, source.scope, source.doc, source.born)
    && Under(source.seed, source.scope, source.doc)
  }

  /** The source of every stored schema is known, and no others. */
  ghost predicate SourcesOk(reg: Registry) {
    && (forall key, n | Stored(reg, key, n) :: key in reg.sources)
    && (forall key, n {:trigger SourceOk(reg, key, n, reg.sources[key])} | Stored(reg, key, n) && key in reg.sources ::
          SourceOk(reg, key, n, reg.sources[key]))
    && (forall key | key in reg.sources :: !Free(reg, key))
  }

  lemma GroundedStable(a: Registry, b: Registry, n: Id, scope: seq<U.Uri>, doc: Json, t: nat)
    requires Grew(a, b) && Grounded(a, n, scope, doc, t)
    ensures Grounded(b, n, scope, doc, t)
  {
    if doc.Object? && Has(doc.members, "$ref") {
      RefStable(a, b, IdScope(scope, doc.members).value, doc.members, n, t, t);
    }
  }

  /** What is true of a document now is what its source will say. */
  lemma {:induction false} GroundedNow(reg: Registry, n: Id, scope: seq<U.Uri>, doc: Json)
    requires Denotes(reg, scope, doc, n)
    ensures Grounded(reg, n, scope, doc, |reg.sources|)
  {
  }

  lemma SourceStable(a: Registry, b: Registry, key: Key, n: Id, source: Source)
    requires Grew(a, b) && SourceOk(a, key, n, source)
    ensures SourceOk(b, key, n, source)
  {
    DenotesStable(a, b, source.scope, source.doc, n);
    GroundedStable(a, b, n, source.scope, source.doc, source.born);
  }

  ghost predicate NothingStored(a: Registry, b: Registry) {
    b.sources == a.sources && forall key, n | Stored(b, key, n) :: Stored(a, key, n)
  }

  lemma SourcesGrow(a: Registry, b: Registry)
    requires SourcesOk(a) && Grew(a, b) && NothingStored(a, b)
    ensures SourcesOk(b)
  {
    forall key, n | Stored(b, key, n) ensures key in b.sources && SourceOk(b, key, n, b.sources[key]) {
      assert SourceOk(a, key, n, a.sources[key]);
      SourceStable(a, b, key, n, a.sources[key]);
    }
    forall key | key in b.sources ensures !Free(b, key) {
      if Free(b, key) { FreeBefore(a, b, key); }
    }
  }

  lemma StoreFiles(reg: Registry, key: Key, s: Id, source: Source)
    ensures var r := Store(reg, key, s, source);
      && r.files.Keys == reg.files.Keys + {key.location}
      && (forall l | l in r.files :: r.files[l].unknown == File(reg.files, l).unknown) && SameKeywords(reg, r)
      && (forall k, n | Stored(r, k, n) :: Stored(reg, k, n) || (k == key && n == s))
  {
    FilledFiles(reg.files, key, s);
    forall k, n | Stored(Store(reg, key, s, source), k, n) ensures Stored(reg, k, n) || (k == key && n == s) {
      StoredBefore(reg, key, s, source, k, n);
    }
  }

  lemma FilledFiles(files: map<string, SchemaFile>, key: Key, s: Id)
    ensures var now := files[key.location := Filled(File(files, key.location), key.fragment, s)];
      && now.Keys == files.Keys + {key.location}
      && forall l :: File(now, l).unknown == File(files, l).unknown
  {
  }

  lemma StoredBefore(reg: Registry, key: Key, s: Id, source: Source, k: Key, n: Id)
    requires Stored(Store(reg, key, s, source), k, n)
    ensures Stored(reg, k, n) || (k == key && n == s)
  {
  }

  lemma {:induction false} StoredSources(a: Registry, key: Key, s: Id, source: Source)
    requires var b := Store(a, key, s, source);
      && SourcesOk(a) && Grew(a, b) && Free(a, key) && Denotes(a, source.scope, source.doc, s)
      && Registered(key, source.scope, source.doc) && Under(source.seed, source.scope, source.doc)
    ensures SourcesOk(Store(a, key, s, source))
  {
    var b := Store(a, key, s, source);
    StoreFiles(a, key, s, source);
    assert key !in a.sources;
    forall k, n | Stored(b, k, n) ensures k in b.sources && SourceOk(b, k, n, b.sources[k]) {
      if k == key {
        NewSource(a, b, key, s, source);
      } else {
        assert SourceOk(a, k, n, a.sources[k]);
        SourceStable(a, b, k, n, a.sources[k]);
      }
    }
    forall k | k in b.sources ensures !Free(b, k) {
      if k != key && Free(b, k) { FreeBefore(a, b, k); }
    }
  }

  lemma {:induction false} NewSource(a: Registry, b: Registry, key: Key, s: Id, source: Source)
    requires Grew(a, b) && |a.sources| < |b.sources| && Denotes(a, source.scope, source.doc, s)
    requires Registered(key, source.scope, source.doc) && Under(source.seed, source.scope, source.doc)
    ensures SourceOk(b, key, s, source.(born := |a.sources|))
  {
    GroundedNow(a, s, source.scope, source.doc);
    GroundedStable(a, b, s, source.scope, source.doc, |a.sources|);
    DenotesStable(a, b, source.scope, source.doc, s);
  }

  // ---------------------------------------------------------------- sources and their seeds

  ghost predicate SeedPlaced(reg: Registry, seed: Seed) { SomePlaced(reg, seed.scope, seed.doc) }

  lemma SeedStable(a: Registry, b: Registry, seed: Seed)
    requires Grew(a, b) && SeedPlaced(a, seed)
    ensures SeedPlaced(b, seed)
  {
    var n :| Placed(a, seed.scope, seed.doc, n);
    PlacedStable(a, b, seed.scope, seed.doc, n);
  }

  /** A keyword that a reference asked for, compiled and stored. */
  ghost predicate KeywordPlaced(reg: Registry, seed: Seed) { seed.origin.Keyword? && SeedPlaced(reg, seed) }

  /** What was stored in between belongs to one document, or to keywords that are stored by now. */
  ghost predicate StoredFor(a: Registry, b: Registry, seed: Seed) {
    forall key | key in b.sources && key !in a.sources ::
      b.sources[key].seed == seed || KeywordPlaced(b, b.sources[key].seed)
  }

  lemma StoredForTransitive(a: Registry, b: Registry, c: Registry, seed: Seed)
    requires Grew(a, b) && Grew(b, c) && StoredFor(a, b, seed) && StoredFor(b, c, seed)
    ensures StoredFor(a, c, seed)
  {
    forall key | key in c.sources && key !in a.sources
      ensures c.sources[key].seed == seed || KeywordPlaced(c, c.sources[key].seed)
    {
      if key in b.sources && b.sources[key].seed != seed { SeedStable(b, c, b.sources[key].seed); }
    }
  }

  /** A keyword is complete once it is placed. */
  lemma StoredForPlaced(a: Registry, b: Registry, inner: Seed, outer: Seed)
    requires StoredFor(a, b, inner) && KeywordPlaced(b, inner)
    ensures StoredFor(a, b, outer)
  {
  }

  /** Every document that something stored is a part of is stored itself. */
  ghost predicate Complete(reg: Registry) {
    forall key | key in reg.sources :: SeedPlaced(reg, reg.sources[key].seed)
  }

  /** What the registry remembers for a URI. */
  ghost predicate FoundAt(reg: Registry, key: Key, scope: seq<U.Uri>, doc: Json) {
    key in reg.sources && reg.sources[key].scope == scope && reg.sources[key].doc == doc
  }

  /** Under a URI stands exactly the schema, among all sub-schemas at any depth of the documents
      compiled, that is registered there. */
  lemma LibraryExactly(reg: Registry, key: Key, scope: seq<U.Uri>, doc: Json)
    requires SourcesOk(reg) && Complete(reg)
    ensures FoundAt(reg, key, scope, doc) <==>
      Registered(key, scope, doc) && exists seed :: SeedPlaced(reg, seed) && Under(seed, scope, doc)
  {
    if FoundAt(reg, key, scope, doc) {
      assert SourceOk(reg, key, reg.files[key.location].schemas[key.fragment], reg.sources[key]);
      assert SeedPlaced(reg, reg.sources[key].seed);
    }
    forall seed | SeedPlaced(reg, seed) && Under(seed, scope, doc) && Registered(key, scope, doc)
      ensures FoundAt(reg, key, scope, doc)
    {
      PartFound(reg, seed, key, scope, doc);
    }
  }

  /** A sub-schema of a compiled document is found under each of its URIs. */
  lemma PartFound(reg: Registry, seed: Seed, key: Key, scope: seq<U.Uri>, doc: Json)
    requires SeedPlaced(reg, seed) && Under(seed, scope, doc) && Registered(key, scope, doc)
    ensures FoundAt(reg, key, scope, doc)
  {
    var n :| Placed(reg, seed.scope, seed.doc, n);
    DescendantPlaced(reg, seed.scope, seed.doc, n, scope, doc);
    var m :| Placed(reg, scope, doc, m);
    var i :| 0 <= i < |FinalScope(scope, doc)| && KeyOf(FinalScope(scope, doc)[i]) == key;
    assert FiledAt(reg, KeyOf(FinalScope(scope, doc)[i]), scope, doc, m);
  }
}
