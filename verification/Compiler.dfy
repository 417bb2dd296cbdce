/** Compilation of schema documents into the schema graph: `root_schema` and `schema::make`. */

module Compiler {
  import opened Wrappers
  import opened Json
  import opened SchemaGraph
  import opened Documents
  import opened Registry
  import opened Denotation
  import opened Library
  import opened CompileSteps
  import opened Tidiness
  import S = Strings
  import U = Uri

  /** Where the document being compiled stands if it is compiled in place, the unknown keywords
      whose compilation in place is under way, and the document that what is compiled is a part of. */
  datatype Context = Context(own: Option<Place>, active: set<Place>, seed: Seed) {
    function Below(tokens: Pointer): (c: Context)
      ensures c.active == active && c.seed == seed
    {
      if own.None? then this else this.(own := Some(Place(own.value.location, own.value.pointer + tokens)))
    }
  }

  /** A document of its own: no unknown keyword is being compiled. */
  function Local(seed: Seed): Context { Context(None, {}, seed) }

  function RootSeed(doc: Json): Seed { Seed(Root, [U.Empty], doc) }

  /** The seed of a keyword that a reference asked for; under a plain name it has no URI. */
  function KeywordSeed(uri: U.Uri, doc: Json): Seed { Seed(Keyword, Scope([uri], []), doc) }

  // ---------------------------------------------------------------- sub-schemas of the document being compiled

  /** The sub-schemas under some keywords are parts of the document. */
  ghost predicate Offered(seed: Seed, us: seq<U.Uri>, members: seq<Member>, g: Group) {
    forall keys, sub {:trigger InGroup(members, g, keys, sub)} | InGroup(members, g, keys, sub) ::
      Under(seed, Scope(us, keys), sub)
  }

  ghost predicate OneOffered(seed: Seed, us: seq<U.Uri>, members: seq<Member>, key: string) {
    Has(members, key) ==> Under(seed, Scope(us, [key]), Get(members, key))
  }

  ghost predicate ListOffered(seed: Seed, us: seq<U.Uri>, entries: seq<Entry>) {
    forall i | 0 <= i < |entries| :: Under(seed, Scope(us, entries[i].keys), entries[i].doc)
  }

  lemma PartsOffered(seed: Seed, scope: seq<U.Uri>, members: seq<Member>, g: Group)
    requires Under(seed, scope, Object(members)) && IdScope(scope, members).Ok? && Counts(members, g)
    ensures Offered(seed, IdScope(scope, members).value, members, g)
  {
    forall keys, sub | InGroup(members, g, keys, sub)
      ensures Under(seed, Scope(IdScope(scope, members).value, keys), sub)
    {
      DescendsOn(seed.scope, seed.doc, scope, members, keys, sub);
    }
  }

  lemma KeyedOffered(seed: Seed, us: seq<U.Uri>, members: seq<Member>, g: Group, key: string, prefix: seq<string>)
    requires Offered(seed, us, members, g) && Has(members, key)
    requires forall keys, sub | KeyedPart(members, key, prefix, keys, sub) :: InGroup(members, g, keys, sub)
    ensures ListOffered(seed, us, Keyed(Get(members, key), prefix, key))
  {
    var entries := Keyed(Get(members, key), prefix, key);
    forall i | 0 <= i < |entries| ensures Under(seed, Scope(us, entries[i].keys), entries[i].doc) {
      assert KeyedPart(members, key, prefix, entries[i].keys, entries[i].doc);
      assert InGroup(members, g, entries[i].keys, entries[i].doc);
    }
  }

  lemma NumberedOffered(seed: Seed, us: seq<U.Uri>, members: seq<Member>, g: Group, key: string)
    requires Offered(seed, us, members, g) && Has(members, key)
    requires forall keys, sub | NumberedPart(members, key, keys, sub) :: InGroup(members, g, keys, sub)
    ensures ListOffered(seed, us, Numbered(Get(members, key), key))
  {
    var entries := Numbered(Get(members, key), key);
    forall i | 0 <= i < |entries| ensures Under(seed, Scope(us, entries[i].keys), entries[i].doc) {
      assert NumberedPart(members, key, entries[i].keys, entries[i].doc);
      assert InGroup(members, g, entries[i].keys, entries[i].doc);
    }
  }

  lemma OneOfOffered(seed: Seed, us: seq<U.Uri>, members: seq<Member>, g: Group, key: string)
    requires Offered(seed, us, members, g)
    requires Has(members, key) ==> InGroup(members, g, [key], Get(members, key))
    ensures OneOffered(seed, us, members, key)
  {
  }

  ghost predicate AllOffered(seed: Seed, us: seq<U.Uri>, members: seq<Member>) {
    forall g: Group | Counts(members, g) :: Offered(seed, us, members, g)
  }

  lemma UnderOffered(seed: Seed, scope: seq<U.Uri>, members: seq<Member>)
    requires Under(seed, scope, Object(members)) && IdScope(scope, members).Ok?
    ensures AllOffered(seed, IdScope(scope, members).value, members)
  {
    forall g: Group | Counts(members, g) ensures Offered(seed, IdScope(scope, members).value, members, g) {
      PartsOffered(seed, scope, members, g);
    }
  }

  lemma ObjectsOffered(seed: Seed, us: seq<U.Uri>, members: seq<Member>)
    requires Offered(seed, us, members, Objects)
    ensures Has(members, "properties") ==>
      ListOffered(seed, us, Keyed(Get(members, "properties"), ["properties"], "properties"))
    ensures Has(members, "patternProperties") ==>
      ListOffered(seed, us, Keyed(Get(members, "patternProperties"), [], "patternProperties"))
    ensures OneOffered(seed, us, members, "additionalProperties") && OneOffered(seed, us, members, "propertyNames")
  {
    if Has(members, "properties") { KeyedOffered(seed, us, members, Objects, "properties", ["properties"]); }
    if Has(members, "patternProperties") { KeyedOffered(seed, us, members, Objects, "patternProperties", []); }
    OneOfOffered(seed, us, members, Objects, "additionalProperties");
    OneOfOffered(seed, us, members, Objects, "propertyNames");
  }

  lemma DependencyOffered(seed: Seed, us: seq<U.Uri>, members: seq<Member>, i: nat)
    requires Offered(seed, us, members, Objects) && Has(members, "dependencies")
    requires i < |Values(Get(members, "dependencies"))|
    ensures var d := Get(members, "dependencies");
      !Values(d)[i].Array? ==> Under(seed, Scope(us, ["dependencies", Keys(d)[i]]), Values(d)[i])
  {
    var d := Get(members, "dependencies");
    if !Values(d)[i].Array? {
      assert ["dependencies"] + [Keys(d)[i]] == ["dependencies", Keys(d)[i]];
      assert KeyedPart(members, "dependencies", ["dependencies"], ["dependencies"] + [Keys(d)[i]], Values(d)[i]);
      assert InGroup(members, Objects, ["dependencies", Keys(d)[i]], Values(d)[i]);
    }
  }

  lemma ArraysOffered(seed: Seed, us: seq<U.Uri>, members: seq<Member>)
    requires Offered(seed, us, members, Arrays)
    ensures Has(members, "items") && Get(members, "items").Array? ==>
      ListOffered(seed, us, Numbered(Get(members, "items"), "items"))
      && OneOffered(seed, us, members, "additionalItems")
    ensures Has(members, "items") && (Get(members, "items").Object? || Get(members, "items").Boolean?) ==>
      OneOffered(seed, us, members, "items")
  {
    if Has(members, "items") && Get(members, "items").Array? {
      NumberedOffered(seed, us, members, Arrays, "items");
      OneOfOffered(seed, us, members, Arrays, "additionalItems");
    } else if Has(members, "items") && (Get(members, "items").Object? || Get(members, "items").Boolean?) {
      OneOfOffered(seed, us, members, Arrays, "items");
    }
  }

  lemma LogicOffered(seed: Seed, us: seq<U.Uri>, members: seq<Member>, key: string)
    requires Offered(seed, us, members, Logics) && key in LOGIC_KEYS && Has(members, key)
    ensures if key == "not" then OneOffered(seed, us, members, key)
            else ListOffered(seed, us, Numbered(Get(members, key), key))
  {
    if key == "not" { OneOfOffered(seed, us, members, Logics, key); }
    else { NumberedOffered(seed, us, members, Logics, key); }
  }

  /** What is left of some members offers no more than the members. */
  lemma {:induction false} OfferedLeft(seed: Seed, us: seq<U.Uri>, members: seq<Member>, erased: set<string>, g: Group)
    requires Offered(seed, us, members, g) && (g == Objects || g == Arrays)
    ensures Offered(seed, us, Without(members, erased), g)
  {
    var left := Without(members, erased);
    forall keys, sub | InGroup(left, g, keys, sub) ensures InGroup(members, g, keys, sub) {
      forall key | Has(left, key) ensures Has(members, key) && Get(left, key) == Get(members, key) {
        OptWithout(members, erased, key);
      }
      GroupWithin(left, members, g, keys, sub);
    }
  }

  lemma GroupWithin(left: seq<Member>, members: seq<Member>, g: Group, keys: seq<string>, sub: Json)
    requires (g == Objects || g == Arrays) && InGroup(left, g, keys, sub)
    requires forall key | Has(left, key) :: Has(members, key) && Get(left, key) == Get(members, key)
    ensures InGroup(members, g, keys, sub)
  {
    if g == Objects {
      PartWithin(left, members, "properties", ["properties"], keys, sub);
      PartWithin(left, members, "patternProperties", [], keys, sub);
      PartWithin(left, members, "dependencies", ["dependencies"], keys, sub);
    } else {
      PartWithin(left, members, "items", [], keys, sub);
    }
  }

  lemma PartWithin(left: seq<Member>, members: seq<Member>, key: string, prefix: seq<string>, keys: seq<string>,
        sub: Json)
    requires forall key | Has(left, key) :: Has(members, key) && Get(left, key) == Get(members, key)
    ensures KeyedPart(left, key, prefix, keys, sub) ==> KeyedPart(members, key, prefix, keys, sub)
    ensures NumberedPart(left, key, keys, sub) ==> NumberedPart(members, key, keys, sub)
  {
  }

  // ---------------------------------------------------------------- what is stored

  /** Files are kept under possible locations, and hold possible texts only. */
  ghost predicate FilesIn(files: map<string, SchemaFile>, universe: set<string>, texts: set<string>) {
    forall l | l in files :: l in universe && forall t | t in Texts(files[l].unknown) :: t in texts
  }

  lemma FilesStay(a: map<string, SchemaFile>, b: map<string, SchemaFile>, location: string, universe: set<string>,
        texts: set<string>)
    requires FilesIn(a, universe, texts) && location in universe
    requires b.Keys == a.Keys + {location} && forall l | l in b :: b[l].unknown == File(a, l).unknown
    ensures FilesIn(b, universe, texts)
  {
    assert Texts(Null) == {};
  }

  ghost predicate AllPlaced(reg: Registry, us: seq<U.Uri>, entries: seq<Entry>, ids: seq<Id>) {
    |ids| == |entries| && forall i | 0 <= i < |entries| ::
      Placed(reg, Scope(us, entries[i].keys), entries[i].doc, ids[i])
  }

  lemma {:induction false} EntriesMore(a: Registry, b: Registry, us: seq<U.Uri>, entries: seq<Entry>, ids: seq<Id>,
        n: Id)
    requires |ids| < |entries| && Grew(a, b) && AllPlaced(a, us, entries[..|ids|], ids)
    requires Placed(b, Scope(us, entries[|ids|].keys), entries[|ids|].doc, n)
    ensures AllPlaced(b, us, entries[..|ids| + 1], ids + [n])
  {
    var done, more := entries[..|ids| + 1], ids + [n];
    forall h | 0 <= h < |done| ensures Placed(b, Scope(us, done[h].keys), done[h].doc, more[h]) {
      if h < |ids| {
        assert done[h] == entries[..|ids|][h];
        PlacedStable(a, b, Scope(us, done[h].keys), done[h].doc, ids[h]);
      }
    }
  }

  lemma {:induction false} DefinitionsNow(reg: Registry, us: seq<U.Uri>, members: seq<Member>, ids: seq<Id>)
    requires Has(members, "definitions") && Size(Get(members, "definitions")) < Size(Object(members))
    requires AllPlaced(reg, us, Keyed(Get(members, "definitions"), ["definitions"], "definitions"), ids)
    ensures DefinitionsDenote(reg, us, members)
  {
    assert EntriesDenote(reg, us, members, Keyed(Get(members, "definitions"), ["definitions"], "definitions"), ids);
  }

  lemma {:induction false} PropertiesNow(reg: Registry, us: seq<U.Uri>, members: seq<Member>, key: string,
        prefix: seq<string>,
        ids: seq<Id>)
    requires Has(members, key) && Size(Get(members, key)) < Size(Object(members))
    requires AllPlaced(reg, us, Keyed(Get(members, key), prefix, key), ids)
    ensures |ids| == |Keys(Get(members, key))|
    ensures PropertiesDenote(reg, us, members, key, prefix,
      seq(|ids|, i requires 0 <= i < |ids| => Property(Keys(Get(members, key))[i], ids[i])))
  {
    var d := Get(members, key);
    forall i | 0 <= i < |ids| ensures Placed(reg, Scope(us, prefix + [Keys(d)[i]]), Values(d)[i], ids[i]) {
      var entry := Keyed(d, prefix, key)[i];
      assert Placed(reg, Scope(us, entry.keys), entry.doc, ids[i]);
    }
  }

  lemma {:induction false} DependenciesNow(reg: Registry, us: seq<U.Uri>, members: seq<Member>, ds: seq<Dependency>)
    requires Has(members, "dependencies") && Size(Get(members, "dependencies")) < Size(Object(members))
    requires |ds| == |Values(Get(members, "dependencies"))|
    requires RequirementsDenote(reg, us, members, Get(members, "dependencies"), ds)
    ensures DependenciesDenote(reg, us, members, ds)
  {
  }

  lemma {:induction false} OneLogicNow(reg: Registry, us: seq<U.Uri>, members: seq<Member>, key: string, ids: seq<Id>)
    requires key != "not" && Has(members, key) && Size(Get(members, key)) < Size(Object(members))
    requires AllPlaced(reg, us, Numbered(Get(members, key), key), ids)
    ensures OneLogicDenotes(reg, us, members, key, Combine(CombinationOf(key), ids))
  {
    assert EntriesDenote(reg, us, members, Numbered(Get(members, key), key), ids);
  }

  lemma {:induction false} ArrayNow(a: Registry, b: Registry, us: seq<U.Uri>, members: seq<Member>, items: ArrayRules,
        maxItems: Option<nat>, minItems: Option<nat>, contains: Option<Id>)
    requires Grew(a, b) && ItemsDenote(a, us, members, items) && OptionDenotes(b, us, members, "contains", contains)
    requires OptSize(members, "maxItems") == Ok(maxItems) && OptSize(members, "minItems") == Ok(minItems)
    ensures ArrayDenotes(b, us, members, true, items.(maxItems := maxItems, minItems := minItems,
      uniqueItems := Opt(members, "uniqueItems") == Some(Boolean(true)), contains := contains))
  {
    ItemsStable(a, b, us, members, items);
    assert ItemsDenote(b, us, members, items.(maxItems := maxItems, minItems := minItems,
      uniqueItems := Opt(members, "uniqueItems") == Some(Boolean(true)), contains := contains));
  }

  lemma {:induction false} ObjectNow(reg: Registry, scope: seq<U.Uri>, members: seq<Member>, n: Id)
    requires IdScope(scope, members).Ok? && n < |reg.nodes|
    requires var us := IdScope(scope, members).value;
      && DefinitionsDenote(reg, us, members)
      && if Has(members, "$ref") then RefDenotes(reg, us, members, n, |reg.sources|)
         else reg.nodes[n].TypeSchema? && TypeDenotes(reg, us, members, reg.nodes[n])
    ensures Denotes(reg, scope, Object(members), n)
  {
  }

  /** Nothing is stored under these URIs. */
  ghost predicate NoneStored(reg: Registry, us: seq<U.Uri>) {
    forall i {:trigger us[i]} | 0 <= i < |us| :: Free(reg, KeyOf(us[i]))
  }

  lemma NoneStoredBefore(a: Registry, b: Registry, us: seq<U.Uri>)
    requires Grew(a, b) && NoneStored(b, us)
    ensures NoneStored(a, us)
  {
    forall i | 0 <= i < |us| ensures Free(a, KeyOf(us[i])) {
      FreeBefore(a, b, KeyOf(us[i]));
    }
  }

  /** Between two states a schema came to be stored, with its document, under the first n URIs. */
  ghost predicate StoredTo(a: Registry, b: Registry, us: seq<U.Uri>, source: Source, n: nat, s: Id) {
    n <= |us| && forall h {:trigger us[h]} | 0 <= h < n ::
      FiledAt(b, KeyOf(us[h]), source.scope, source.doc, s) && Free(a, KeyOf(us[h]))
  }

  lemma StoredToMore(a: Registry, v: Registry, b: Registry, us: seq<U.Uri>, source: Source, i: nat, s: Id)
    requires i < |us| && Grew(a, v) && Grew(v, b) && StoredTo(a, v, us, source, i, s)
    requires FiledAt(b, KeyOf(us[i]), source.scope, source.doc, s) && Free(v, KeyOf(us[i]))
    ensures StoredTo(a, b, us, source, i + 1, s)
  {
    FreeBefore(a, v, KeyOf(us[i]));
    forall h | 0 <= h < i ensures FiledAt(b, KeyOf(us[h]), source.scope, source.doc, s) {
      FiledStill(v, b, KeyOf(us[h]), source.scope, source.doc, s);
    }
  }

  lemma FiledStill(a: Registry, b: Registry, key: Key, scope: seq<U.Uri>, doc: Json, n: Id)
    requires Grew(a, b) && FiledAt(a, key, scope, doc, n)
    ensures FiledAt(b, key, scope, doc, n)
  {
  }

  lemma StoredToAll(a: Registry, b: Registry, source: Source, s: Id)
    requires var us := FinalScope(source.scope, source.doc); StoredTo(a, b, us, source, |us|, s)
    ensures Filed(b, source.scope, source.doc, s) && NoneStored(a, FinalScope(source.scope, source.doc))
  {
  }

  lemma {:induction false} NowPlaced(a: Registry, v: Registry, b: Registry, source: Source, s: Id)
    requires Grew(a, v) && Grew(v, b) && Denotes(v, source.scope, source.doc, s)
    requires var us := FinalScope(source.scope, source.doc); StoredTo(v, b, us, source, |us|, s)
    ensures Placed(b, source.scope, source.doc, s) && NoneStored(a, FinalScope(source.scope, source.doc))
  {
    StoredToAll(v, b, source, s);
    NoneStoredBefore(a, v, FinalScope(source.scope, source.doc));
    DenotesStable(v, b, source.scope, source.doc, s);
  }

  /** What a schema is stored with: a document that it is the compiled form of, a part of another. */
  ghost predicate Storable(reg: Registry, key: Key, s: Id, source: Source) {
    && Denotes(reg, source.scope, source.doc, s) && Registered(key, source.scope, source.doc)
    && Under(source.seed, source.scope, source.doc)
  }

  lemma {:induction false} StorableStill(a: Registry, b: Registry, us: seq<U.Uri>, source: Source, i: nat, s: Id)
    requires us == FinalScope(source.scope, source.doc) && i < |us|
    requires Grew(a, b) && Denotes(a, source.scope, source.doc, s) && Under(source.seed, source.scope, source.doc)
    ensures Storable(b, KeyOf(us[i]), s, source)
  {
    DenotesStable(a, b, source.scope, source.doc, s);
  }

  lemma InsertKeeps(reg: Registry, key: Key, s: Id, source: Source)
    requires Consistent(reg) && SourcesOk(reg) && Storable(reg, key, s, source) && Free(reg, key)
    ensures var r := Store(reg, key, s, source);
      && Consistent(r) && Grew(reg, r) && FiledAt(r, key, source.scope, source.doc, s) && SourcesOk(r)
      && r.files.Keys == reg.files.Keys + {key.location}
      && (forall l | l in r.files :: r.files[l].unknown == File(reg.files, l).unknown) && SameKeywords(reg, r)
      && StoredFor(reg, r, source.seed)
    ensures var file := File(reg.files, key.location);
      key.fragment in file.unresolved ==> WaitingOk(reg, key, file.unresolved[key.fragment])
  {
    assert s < |reg.nodes| && key !in reg.sources;
    StoreKeeps(reg, key, s, source);
    StoreWaiter(reg, key);
    StoreFiles(reg, key, s, source);
    StoredSources(reg, key, s, source);
  }

  lemma StoreTidy(plan: Plan, reg: Registry, key: Key, s: Id, source: Source)
    requires Tidy(plan, reg.files)
    ensures Tidy(plan, Store(reg, key, s, source).files)
  {
    FilledTidy(plan, reg.files, key, s);
  }

  lemma FilledTidy(plan: Plan, files: map<string, SchemaFile>, key: Key, s: Id)
    requires Tidy(plan, files)
    ensures Tidy(plan, files[key.location := Filled(File(files, key.location), key.fragment, s)])
  {
    var after := files[key.location := Filled(File(files, key.location), key.fragment, s)];
    forall l ensures File(after, l).unknown == File(files, l).unknown
      && File(files, l).schemas.Keys <= File(after, l).schemas.Keys
      && File(after, l).unresolved.Keys <= File(files, l).unresolved.Keys
    {
      if l != key.location { assert File(after, l) == File(files, l); }
    }
    StoredTidy(plan, files, after);
  }

  lemma ReferenceFiles(reg: Registry, key: Key, id: string)
    requires Free(reg, key)
    ensures var r := AddReference(reg, key, id);
      && r.files.Keys == reg.files.Keys + {key.location}
      && (forall l | l in r.files :: r.files[l].unknown == File(reg.files, l).unknown) && SameKeywords(reg, r)
      && NothingStored(reg, r)
  {
  }

  lemma ReferenceKeeps(reg: Registry, key: Key, id: string)
    requires Consistent(reg) && SourcesOk(reg) && Free(reg, key)
    requires key.fragment !in File(reg.files, key.location).unresolved
    ensures var r := AddReference(reg, key, id);
      && Consistent(r) && Grew(reg, r) && SourcesOk(r)
      && r.files.Keys == reg.files.Keys + {key.location}
      && (forall l | l in r.files :: r.files[l].unknown == File(reg.files, l).unknown) && SameKeywords(reg, r)
  {
    AddReferenceKeeps(reg, key, id);
    ReferenceFiles(reg, key, id);
    SourcesGrow(reg, AddReference(reg, key, id));
  }

  lemma ReferenceTidy(plan: Plan, reg: Registry, key: Key, id: string)
    requires Tidy(plan, reg.files) && Waitable(plan, key)
    ensures Tidy(plan, AddReference(reg, key, id).files)
  {
    StoredTidy(plan, reg.files, AddReference(reg, key, id).files);
  }

  lemma {:induction false} WithoutNothing(members: seq<Member>)
    ensures Without(members, {}) == members
  {
    if members != [] { WithoutNothing(members[1..]); }
  }

  lemma {:induction false} OneMoreKind(a: Registry, b: Registry, us: seq<U.Uri>, members: seq<Member>,
        left: seq<Member>,
        types: seq<string>, i: nat, table: TypeTable, table': TypeTable)
    requires i < |types| && Grew(a, b) && left == Without(members, KindsConsumed(members, types[..i]))
    requires PlainTableDenotes(a, us, members, types[..i], table) && KindBuilt(b, us, left, [], types[i], table, table')
    ensures PlainTableDenotes(b, us, members, types[..i + 1], table')
  {
    KindBuiltOn(a, b, us, members, left, types[..i], types[i], table, table');
    assert types[..i + 1] == types[..i] + [types[i]];
  }

  lemma {:induction false} KindBuiltOn(a: Registry, b: Registry, us: seq<U.Uri>, members: seq<Member>,
        left: seq<Member>, done: seq<string>, name: string, table: TypeTable, table': TypeTable)
    requires Grew(a, b) && left == Without(members, KindsConsumed(members, done))
    requires PlainTableDenotes(a, us, members, done, table) && KindBuilt(b, us, left, [], name, table, table')
    ensures PlainTableDenotes(b, us, members, done + [name], table')
  {
    KindFrom(b, us, members, left, done, name, table, table');
    KindAdded(a, b, us, members, done, name, table, table');
  }

  lemma {:induction false} KindAdded(a: Registry, b: Registry, us: seq<U.Uri>, members: seq<Member>, types: seq<string>,
        name: string,
        table: TypeTable, table': TypeTable)
    requires Grew(a, b) && PlainTableDenotes(a, us, members, types, table)
    requires KindBuilt(b, us, members, types, name, table, table')
    ensures PlainTableDenotes(b, us, members, types + [name], table')
  {
    PlainTableStable(a, b, us, members, types, table);
    TableStep(b, us, members, types, name, table, table');
  }

  ghost predicate RequirementsDenote(reg: Registry, us: seq<U.Uri>, members: seq<Member>, d: Json, ds: seq<Dependency>)
    requires Size(d) < Size(Object(members)) && |ds| <= |Values(d)|
  {
    forall h | 0 <= h < |ds| ::
      ds[h].name == Keys(d)[h] && RequirementDenotes(reg, us, members, Keys(d)[h], Values(d)[h], ds[h].requirement)
  }

  lemma {:induction false} RequirementsMore(a: Registry, b: Registry, us: seq<U.Uri>, members: seq<Member>, d: Json,
        ds: seq<Dependency>,
        q: Requirement)
    requires Size(d) < Size(Object(members)) && |ds| < |Values(d)| && Grew(a, b)
    requires RequirementsDenote(a, us, members, d, ds)
    requires RequirementDenotes(b, us, members, Keys(d)[|ds|], Values(d)[|ds|], q)
    ensures RequirementsDenote(b, us, members, d, ds + [Dependency(Keys(d)[|ds|], q)])
  {
    forall h | 0 <= h < |ds| ensures RequirementDenotes(b, us, members, Keys(d)[h], Values(d)[h], ds[h].requirement) {
      RequirementStable(a, b, us, members, Keys(d)[h], Values(d)[h], ds[h].requirement);
    }
  }

  /** The document is compiled, and stored, under a URI of its own. */
  ghost predicate LoadedAs(reg: Registry, u: U.Uri, doc: Json) {
    exists n :: LoadedWith(reg, u, doc, n)
  }

  ghost predicate LoadedWith(reg: Registry, u: U.Uri, doc: Json, n: Id) {
    Placed(reg, [u], doc, n) && Stored(reg, KeyOf(u), n)
  }

  lemma LoadedStill(a: Registry, b: Registry, u: U.Uri, doc: Json)
    requires Grew(a, b) && LoadedAs(a, u, doc)
    ensures LoadedAs(b, u, doc)
  {
    var n :| LoadedWith(a, u, doc, n);
    PlacedStable(a, b, [u], doc, n);
    assert LoadedWith(b, u, doc, n);
  }

  lemma {:induction false} MadeAlone(reg: Registry, u: U.Uri, doc: Json, n: Id)
    requires Placed(reg, [u], doc, n)
    ensures LoadedWith(reg, u, doc, n) && LoadedAs(reg, u, doc)
  {
    FinalScopeKeeps([u], doc);
    assert FinalScope([u], doc)[0] == u;
    assert FiledAt(reg, KeyOf(FinalScope([u], doc)[0]), [u], doc, n);
    assert LoadedWith(reg, u, doc, n);
  }

  lemma PlainUri(location: string)
    requires '#' !in location && U.Parse(location).Ok?
    ensures KeyOf(U.Parse(location).value).fragment == ""
    ensures Scope([U.Parse(location).value], []) == [U.Parse(location).value]
  {
    U.ParseWithoutFragment(location);
    var u := U.Parse(location).value;
    assert Pointed([u]) == [u] + Pointed([u][1..]);
  }

  lemma RootUri()
    ensures U.Parse("#") == Ok(U.Empty) && KeyOf(U.Empty) == Key("", "") && Scope([U.Empty], []) == [U.Empty]
  {
    U.ParseWithoutFragment("");
    var s := "#";
    assert s[0] == '#';
    assert U.LocationPart(s) == "" && U.FragmentPart(s) == "";
    assert Pointed([U.Empty]) == [U.Empty] + Pointed([U.Empty][1..]);
  }

  ghost function BareIn(reg: Registry, locations: set<string>): set<string> {
    set l | l in locations && Free(reg, Key(l, ""))
  }

  lemma FewerBare(a: Registry, b: Registry, locations: set<string>, key: Key, n: Id)
    requires Grew(a, b) && key.location in locations && key.fragment == "" && Free(a, key) && Stored(b, key, n)
    ensures BareIn(b, locations) < BareIn(a, locations)
  {
    forall l | l in BareIn(b, locations) ensures l in BareIn(a, locations) {
      FreeBefore(a, b, Key(l, ""));
    }
    assert key == Key(key.location, "") && !Free(b, key);
    assert key.location in BareIn(a, locations) && key.location !in BareIn(b, locations);
  }

  /** A fresh schema under the plain URI of a location. */
  lemma {:induction false} LoadedNow(a: Registry, b: Registry, locations: set<string>, u: U.Uri, doc: Json, n: Id)
    requires Grew(a, b) && U.Location(u) in locations && KeyOf(u).fragment == ""
    requires Placed(b, [u], doc, n) && NoneStored(a, FinalScope([u], doc))
    ensures LoadedAs(b, u, doc) && BareIn(b, locations) < BareIn(a, locations)
  {
    MadeAlone(b, u, doc, n);
    FinalScopeKeeps([u], doc);
    assert FinalScope([u], doc)[0] == u;
    FewerBare(a, b, locations, KeyOf(u), n);
  }

  /** What was stored in between belongs to fetched documents and to keywords, all stored by now. */
  ghost predicate Fetches(a: Registry, b: Registry) {
    forall key | key in b.sources && key !in a.sources ::
      SeedPlaced(b, b.sources[key].seed) && !b.sources[key].seed.origin.Root?
  }

  lemma {:induction false} FetchesNow(a: Registry, b: Registry, seed: Seed, n: Id)
    requires StoredFor(a, b, seed) && Placed(b, seed.scope, seed.doc, n) && seed.origin.Fetched?
    ensures Fetches(a, b)
  {
    assert SeedPlaced(b, seed);
  }

  lemma FetchesTransitive(a: Registry, b: Registry, c: Registry)
    requires Grew(a, b) && Grew(b, c) && Fetches(a, b) && Fetches(b, c)
    ensures Fetches(a, c)
  {
    forall key | key in c.sources && key !in a.sources
      ensures SeedPlaced(c, c.sources[key].seed) && !c.sources[key].seed.origin.Root?
    {
      if key in b.sources { SeedStable(b, c, b.sources[key].seed); }
    }
  }

  /** Everything stored belongs to the root document, to fetched documents and to keywords, and
      these are stored themselves. */
  ghost predicate Accounted(reg: Registry, doc: Json) {
    Complete(reg) && forall key | key in reg.sources ::
      reg.sources[key].seed.origin.Root? ==> reg.sources[key].seed == RootSeed(doc)
  }

  lemma {:induction false} AccountedNow(reg: Registry, doc: Json, n: Id)
    requires Placed(reg, [U.Empty], doc, n)
    requires forall key | key in reg.sources ::
      reg.sources[key].seed == RootSeed(doc) || KeywordPlaced(reg, reg.sources[key].seed)
    ensures Accounted(reg, doc)
  {
    assert SeedPlaced(reg, RootSeed(doc));
  }

  lemma AccountedStill(a: Registry, b: Registry, doc: Json)
    requires Accounted(a, doc) && Grew(a, b) && Fetches(a, b)
    ensures Accounted(b, doc)
  {
    forall key | key in b.sources ensures SeedPlaced(b, b.sources[key].seed) {
      if key in a.sources { SeedStable(a, b, a.sources[key].seed); }
    }
  }

  lemma RootStill(a: Registry, b: Registry, doc: Json, n: Id)
    requires Grew(a, b) && Fetches(a, b) && LoadedAs(a, U.Empty, doc) && Accounted(a, doc) && Stored(a, Key("", ""), n)
    ensures LoadedAs(b, U.Empty, doc) && Accounted(b, doc) && Stored(b, Key("", ""), n)
  {
    LoadedStill(a, b, U.Empty, doc);
    AccountedStill(a, b, doc);
  }

  lemma {:induction false} NextLogic(members: seq<Member>, keys: seq<string>, i: nat)
    requires i < |keys|
    ensures LogicListed(members, keys[..i + 1]) ==
            LogicListed(members, keys[..i]) + (if Has(members, keys[i]) then [keys[i]] else [])
  {
    LogicListedSnoc(members, keys[..i], keys[i]);
    assert keys[..i + 1] == keys[..i] + [keys[i]];
  }

  lemma {:induction false} OneMoreLogic(a: Registry, b: Registry, us: seq<U.Uri>, members: seq<Member>,
        keys: seq<string>,
        logic: seq<Logic>, key: string, l: Logic)
    requires Grew(a, b) && LogicDenotes(a, us, members, keys, logic) && OneLogicDenotes(b, us, members, key, l)
    ensures LogicDenotes(b, us, members, keys + [key], logic + [l])
  {
    LogicStable(a, b, us, members, keys, logic);
    LogicMore(b, us, members, keys, logic, key, l);
  }

  // ---------------------------------------------------------------- what becomes of references and unknown keywords

  /** The reference that waits for a URI, or a new one. */
  ghost predicate WaitsFor(a: Registry, b: Registry, key: Key, n: Id) {
    var unresolved := File(a.files, key.location).unresolved;
    if key.fragment in unresolved then b == a && n == unresolved[key.fragment]
    else b == AddReference(a, key, key.location + " # " + key.fragment) && n == |a.nodes|
  }

  /** A keyword becomes the schema under a URI; only its leftover stays a keyword. */
  ghost predicate TurnedInto(a: Registry, b: Registry, uri: U.Uri, sub: Json, n: Id) {
    && LoadedWith(b, uri, sub, n)
    && exists v: Registry, left: Json :: TurnedVia(a, v, b, uri, sub, left)
  }

  /** Until its leftover replaces it the keyword stands where it was found: compiling it, nested
      compilations included, has not touched it. */
  ghost predicate TurnedVia(a: Registry, v: Registry, b: Registry, uri: U.Uri, sub: Json, left: Json) {
    && Shrunk(Leftover(sub), left) && Grew(a, v) && Forgotten(v, b, uri, left)
    && KeywordAt(v, Place(U.Location(uri), uri.pointer)) == Found(sub)
  }

  ghost predicate Forgotten(v: Registry, b: Registry, uri: U.Uri, left: Json) {
    var location := U.Location(uri);
    && location in v.files
    && b == SetUnknown(v, location, Forget(ReplaceAt(v.files[location].unknown, uri.pointer, left), U.Fragment(uri)))
  }

  lemma NowTurnedInto(a: Registry, v: Registry, b: Registry, uri: U.Uri, sub: Json, n: Id, left: Json)
    requires Grew(v, b) && LoadedWith(v, uri, sub, n) && TurnedVia(a, v, b, uri, sub, left)
    ensures TurnedInto(a, b, uri, sub, n)
  {
    PlacedStable(v, b, [uri], sub, n);
    assert Stored(v, KeyOf(uri), n) && Stored(b, KeyOf(uri), n);
  }

  /** Forgetting one keyword leaves those alone that overlap neither it nor the erased key. */
  lemma ForgottenElsewhere(v: Registry, b: Registry, uri: U.Uri, left: Json, active: set<Place>)
    requires Forgotten(v, b, uri, left)
    requires Apart(Place(U.Location(uri), uri.pointer), active)
    requires Apart(Place(U.Location(uri), [U.Fragment(uri)]), active)
    ensures Undisturbed(v, b, active)
  {
    var unknown := v.files[U.Location(uri)].unknown;
    forall p | p in active && p.location == U.Location(uri) ensures KeywordAt(b, p) == KeywordAt(v, p) {
      ReplaceAtElsewhere(unknown, uri.pointer, left, p.pointer);
      assert p.pointer != [] && p.pointer[0] != U.Fragment(uri) by {
        assert p.pointer == [] || p.pointer == [p.pointer[0]] + p.pointer[1..];
      }
      ForgetElsewhere(ReplaceAt(unknown, uri.pointer, left), U.Fragment(uri), p.pointer);
    }
  }

  /** Keeping a keyword leaves those alone that it does not overlap. */
  lemma {:induction false} KeptElsewhere(a: Registry, location: string, tokens: Pointer, key: string, value: Json,
        active: set<Place>)
    requires PutPath(File(a.files, location).unknown, tokens, key, value).Some?
    requires Apart(Place(location, tokens + [key]), active)
    ensures Undisturbed(a, SetUnknown(a, location, PutPath(File(a.files, location).unknown, tokens, key, value).value),
      active)
  {
    forall p | p in active && p.location == location
      ensures At(PutPath(File(a.files, location).unknown, tokens, key, value).value, p.pointer) == KeywordAt(a, p)
    {
      PutPathElsewhere(File(a.files, location).unknown, tokens, key, value, p.pointer);
    }
  }

  /** The lookup behind a URI would reach, or pass through, a keyword that is being compiled. */
  ghost predicate LooksInside(reg: Registry, uri: U.Uri, active: set<Place>) {
    && Free(reg, KeyOf(uri)) && uri.pointer != []
    && !KeywordAt(reg, Place(U.Location(uri), uri.pointer)).OutOfRange?
    && !Apart(Place(U.Location(uri), uri.pointer), active)
  }

  /** The keyword that the pointer finds is compiled in place. */
  ghost predicate MadeInPlace(reg: Registry, uri: U.Uri) {
    Free(reg, KeyOf(uri)) && uri.pointer != [] && KeywordAt(reg, Place(U.Location(uri), uri.pointer)).Found?
  }

  /** What `get_or_create_ref` hands out: the schema stored under the URI, else the unknown keyword
      its pointer finds, turned into a schema, else a reference that waits. */
  ghost predicate GivenOut(a: Registry, b: Registry, uri: U.Uri, n: Id) {
    var key, file := KeyOf(uri), File(a.files, U.Location(uri));
    if key.fragment in file.schemas then b == a && n == file.schemas[key.fragment]
    else if uri.pointer != [] && At(file.unknown, uri.pointer).Found?
      then TurnedInto(a, b, uri, At(file.unknown, uri.pointer).json, n)
    else WaitsFor(a, b, key, n)
  }

  /** What `insert_unknown_keyword` does with one keyword: it becomes a schema if a reference
      waits for it, and otherwise is kept under its pointer. One that stands there already, in a
      document compiled in place, is assigned to itself. */
  ghost predicate KeptOrMade(a: Registry, b: Registry, own: Option<Place>, uri: U.Uri, key: string, value: Json,
        left: Json) {
    var location, newUri := U.Location(uri), U.Append(uri, key);
    var file := File(a.files, location);
    if S.PointerText(newUri.pointer) in file.unresolved then
      Shrunk(Leftover(value), left) && exists n :: Placed(b, Scope([newUri], []), value, n)
    else if own == Some(Place(location, uri.pointer)) then
      left == value && b == a
    else
      && left == value && PutPath(file.unknown, uri.pointer, key, value).Some?
      && b == SetUnknown(a, location, PutPath(file.unknown, uri.pointer, key, value).value)
  }

  function Inner(own: Option<Place>, key: string): Option<Place> {
    if own.None? then None else Some(Place(own.value.location, own.value.pointer + [key]))
  }

  /** The first n members of an object, one after the other, as unknown keywords. */
  ghost predicate Walked(a: Registry, b: Registry, own: Option<Place>, uri: U.Uri, members: seq<Member>, n: nat)
    decreases Size(Object(members)), 1, n, 1
  {
    n <= |members| && if n == 0 then b == a else exists v: Registry :: WalkedVia(a, v, b, own, uri, members, n)
  }

  ghost predicate WalkedVia(a: Registry, v: Registry, b: Registry, own: Option<Place>, uri: U.Uri,
        members: seq<Member>, n: nat)
    requires 0 < n <= |members|
    decreases Size(Object(members)), 1, n, 0
  {
    Walked(a, v, own, uri, members, n - 1) && Entered(v, b, own, uri, members[n - 1])
  }

  /** One unknown keyword, and then the members left in it. */
  ghost predicate Entered(a: Registry, b: Registry, own: Option<Place>, uri: U.Uri, m: Member)
    decreases Size(m.value), 2
  {
    exists w: Registry, left: Json ::
      && Shrunk(m.value, left) && KeptOrMade(a, w, own, uri, m.key, m.value, left)
      && EnteredRest(w, b, Inner(own, m.key), U.Append(uri, m.key), m, left)
  }

  ghost predicate EnteredRest(w: Registry, b: Registry, own: Option<Place>, uri: U.Uri, m: Member, left: Json)
    requires Shrunk(m.value, left)
    decreases Size(m.value), 1
  {
    if left.Object? then Walked(w, b, own, uri, left.members, |left.members|) else b == w
  }

  lemma WalkedMore(a: Registry, v: Registry, b: Registry, own: Option<Place>, uri: U.Uri, members: seq<Member>, i: nat)
    requires i < |members| && Walked(a, v, own, uri, members, i) && Entered(v, b, own, uri, members[i])
    ensures Walked(a, b, own, uri, members, i + 1)
  {
    assert WalkedVia(a, v, b, own, uri, members, i + 1);
  }

  lemma {:induction false} EnteredNow(a: Registry, w: Registry, b: Registry, own: Option<Place>, uri: U.Uri,
        key: string, value: Json,
        left: Json)
    requires Shrunk(value, left) && KeptOrMade(a, w, own, uri, key, value, left)
    requires if left.Object? then Walked(w, b, Inner(own, key), U.Append(uri, key), left.members, |left.members|)
             else b == w
    ensures Entered(a, b, own, uri, Member(key, value))
  {
    assert EnteredRest(w, b, Inner(own, key), U.Append(uri, key), Member(key, value), left);
  }

  /** A schema is stored under a free URI, and the members left in its document follow. */
  ghost predicate RegisteredAs(a: Registry, b: Registry, own: Option<Place>, uri: U.Uri, s: Id, source: Source,
        left: Json) {
    && Free(a, KeyOf(uri))
    && var w := Store(a, KeyOf(uri), s, source);
       if left.Object? then Walked(w, b, own, uri, left.members, |left.members|) else b == w
  }

  lemma {:induction false} RegisteredNow(a: Registry, v: Registry, b: Registry, own: Option<Place>, uri: U.Uri, s: Id,
        source: Source,
        left: Json)
    requires Free(a, KeyOf(uri)) && v == Store(a, KeyOf(uri), s, source) && Grew(v, b) && left.Object?
    requires FiledAt(v, KeyOf(uri), source.scope, source.doc, s)
    requires Walked(v, b, own, uri, left.members, |left.members|)
    ensures RegisteredAs(a, b, own, uri, s, source, left) && FiledAt(b, KeyOf(uri), source.scope, source.doc, s)
  {
  }

  /** The same for the first n URIs in turn, of which each may find less left than the one before. */
  ghost predicate RegisteredTo(a: Registry, b: Registry, own: Option<Place>, us: seq<U.Uri>, n: nat, s: Id,
        source: Source, left: Json)
    decreases n, 1
  {
    n <= |us| && if n == 0 then b == a else exists v: Registry, l: Json ::
      RegisteredVia(a, v, b, own, us, n, s, source, left, l)
  }

  ghost predicate RegisteredVia(a: Registry, v: Registry, b: Registry, own: Option<Place>, us: seq<U.Uri>, n: nat,
        s: Id, source: Source, left: Json, l: Json)
    requires 0 < n <= |us|
    decreases n, 0
  {
    Shrunk(left, l) && RegisteredTo(a, v, own, us, n - 1, s, source, left)
      && RegisteredAs(v, b, own, us[n - 1], s, source, l)
  }

  lemma RegisteredMore(a: Registry, v: Registry, b: Registry, own: Option<Place>, us: seq<U.Uri>, i: nat, s: Id,
        source: Source, left: Json, l: Json)
    requires i < |us| && Shrunk(left, l) && RegisteredTo(a, v, own, us, i, s, source, left)
    requires RegisteredAs(v, b, own, us[i], s, source, l)
    ensures RegisteredTo(a, b, own, us, i + 1, s, source, left)
  {
    assert RegisteredVia(a, v, b, own, us, i + 1, s, source, left, l);
  }

  /** The schema is stored and its leftover entered for the first n URIs. */
  ghost predicate Entering(a: Registry, b: Registry, own: Option<Place>, us: seq<U.Uri>, n: nat, s: Id,
        source: Source, left: Json) {
    StoredTo(a, b, us, source, n, s) && RegisteredTo(a, b, own, us, n, s, source, left)
  }

  lemma OneMoreUri(a: Registry, v: Registry, b: Registry, own: Option<Place>, us: seq<U.Uri>, i: nat, s: Id,
        source: Source, left: Json, l: Json)
    requires i < |us| && Grew(a, v) && Grew(v, b) && Shrunk(left, l)
    requires Entering(a, v, own, us, i, s, source, left)
    requires FiledAt(b, KeyOf(us[i]), source.scope, source.doc, s) && RegisteredAs(v, b, own, us[i], s, source, l)
    ensures Entering(a, b, own, us, i + 1, s, source, left)
  {
    StoredToMore(a, v, b, us, source, i, s);
    RegisteredMore(a, v, b, own, us, i, s, source, left, l);
  }

  /** After compiling its parts, a document's schema is registered and its leftover entered. */
  ghost predicate MadeAs(a: Registry, b: Registry, own: Option<Place>, s: Id, source: Source, left: Json) {
    var us := FinalScope(source.scope, source.doc);
    exists v: Registry :: Grew(a, v) && RegisteredTo(v, b, own, us, |us|, s, source, left)
  }

  lemma PlainScope(uri: U.Uri)
    requires uri.identifier == ""
    ensures Scope([uri], []) == [uri]
  {
    assert Pointed([uri]) == [uri] + Pointed([uri][1..]);
  }

  ghost predicate FullBut(files: map<string, SchemaFile>, pending: set<string>) {
    forall l | l in files && l !in pending :: files[l].schemas != map[]
  }

  /** In the middle of a round: something was fetched, or nothing was and nothing was needed. */
  ghost predicate RoundSoFar(a: Registry, b: Registry, locations: set<string>, pending: set<string>, loaded: bool) {
    && Grew(a, b) && Fetches(a, b) && pending <= b.files.Keys
    && if loaded then BareIn(b, locations) < BareIn(a, locations) else b == a && FullBut(b.files, pending)
  }

  lemma NextInRound(a: Registry, v: Registry, b: Registry, locations: set<string>, pending: set<string>,
        location: string, loaded: bool, now: bool)
    requires RoundSoFar(a, v, locations, pending, loaded) && location in v.files && Grew(v, b) && Fetches(v, b)
    requires if now then BareIn(b, locations) < BareIn(v, locations) else b == v && v.files[location].schemas != map[]
    ensures RoundSoFar(a, b, locations, pending - {location}, loaded || now)
  {
    GrewTransitive(a, v, b);
    FetchesTransitive(a, v, b);
  }

  /** For any document, loader and finite set of locations there are texts that cover them. */
  lemma EnoughTexts(doc: Json, loader: string -> Json, universe: set<string>) returns (texts: set<string>)
    ensures forall t | t in Texts(doc) :: t in texts
    ensures forall l, t | l in universe && t in Texts(loader(l)) :: t in texts
  {
    texts := Texts(doc) + set l, t | l in universe && t in Texts(loader(l)) :: t;
  }

  class RootSchema {
    const loader: Option<string -> Json>
    const hasFormatCheck: bool
    const hasContentCheck: bool
    const validPattern: string -> bool

    var nodes: Graph
    var files: map<string, SchemaFile>
    var root: Option<Id>

    ghost var handed: map<Id, Key>
    ghost var sources: map<Key, Source>
    const universe: set<string>     // the locations considered
    ghost const texts: set<string>  // the references and ids in the documents considered
    ghost const plan: Option<Plan>  // the unknown keywords that references may ask for, if that is foreseen

    constructor (loader: Option<string -> Json>, hasFormatCheck: bool, hasContentCheck: bool,
                 validPattern: string -> bool, universe: set<string>, ghost texts: set<string>,
                 ghost plan: Option<Plan>)
      requires plan.Some? ==> PlanOk(plan.value)
      ensures Valid() && this.universe == universe && this.texts == texts && this.loader == loader && this.plan == plan
    {
      this.loader, this.hasFormatCheck, this.hasContentCheck := loader, hasFormatCheck, hasContentCheck;
      this.validPattern, this.universe, this.texts, this.plan := validPattern, universe, texts, plan;
      nodes, files, root, handed, sources := [], map[], None, map[], map[];
    }

    ghost function View(): Registry
      reads this
    {
      Registry(nodes, files, handed, sources)
    }

    ghost predicate TextsIn(doc: Json)
    {
      forall t | t in Texts(doc) :: t in texts
    }

    /** A JSON value whose references and ids are among those considered. */
    ghost predicate Considered(doc: Json) { WellFormed(doc) && TextsIn(doc) }

    ghost predicate Valid()
      reads this
    {
      Fine(View())
    }

    /** What every step of compilation keeps. */
    ghost predicate Fine(reg: Registry) {
      && Consistent(reg) && SourcesOk(reg) && FilesIn(reg.files, universe, texts) && SeedsAllowed(reg)
      && (plan.Some? ==> PlanOk(plan.value) && Tidy(plan.value, reg.files))
    }

    ghost predicate SeedsAllowed(reg: Registry) {
      forall key {:trigger SeedAllowed(reg.sources[key].seed)} | key in reg.sources ::
        SeedAllowed(reg.sources[key].seed)
    }

    /** A fetched document is what the loader returns; a keyword is one of those foreseen. */
    ghost predicate SeedAllowed(seed: Seed)
    {
      && (seed.origin.Root? ==> seed.scope == [U.Empty])
      && (seed.origin.Fetched? ==>
            && loader.Some? && seed.origin.location in universe && seed.doc == loader.value(seed.origin.location)
            && U.Parse(seed.origin.location).Ok? && seed.scope == [U.Parse(seed.origin.location).value])
      && (plan.Some? ==> SeedFits(plan.value, seed))
    }

    /** The places that references can ask for. */
    ghost function Places(): set<Place> { PlacesOf(universe, texts) }

    /** Only keywords that a reference asked for are compiled in place. */
    ghost predicate Known(ctx: Context) {
      ctx.active <= Places() && SeedAllowed(ctx.seed) && (plan.Some? ==> InPlan(ctx))
    }

    /** The document is tidy, and asks for keywords of lower rank than those being compiled. */
    ghost predicate InPlan(ctx: Context)
      requires plan.Some?
    {
      var bound := BoundOf(plan.value, ctx.seed);
      && SeedTidy(plan.value, ctx.seed) && bound <= plan.value.limit
      && (forall p | p in ctx.active :: p in plan.value.asked && plan.value.asked[p].rank >= bound)
      && (bound == plan.value.limit ==> ctx.own.None? && ctx.active == {})
    }

    /** What compiling does to the registry while the keywords at some places are being compiled. What
        was stored is accounted for unless compilation was broken off. */
    ghost predicate Moved(a: Registry, b: Registry, ctx: Context, ok: bool)
    {
      && Grew(a, b) && Undisturbed(a, b, ctx.active) && (ok ==> StoredFor(a, b, ctx.seed))
      && (plan.Some? ==> Lasting(plan.value, a.files, b.files))
    }

    lemma MovedTransitive(a: Registry, b: Registry, c: Registry, ctx: Context, ok: bool)
      requires Moved(a, b, ctx, true) && Moved(b, c, ctx, ok)
      ensures Moved(a, c, ctx, ok)
    {
      GrewTransitive(a, b, c);
      if ok { StoredForTransitive(a, b, c, ctx.seed); }
    }

    /** Further inside a document that is compiled in place. */
    lemma KeywordMoved(a: Registry, b: Registry, c: Registry, ctx: Context, key: string, ok: bool)
      requires Moved(a, b, ctx, true) && Moved(b, c, ctx.Below([key]), ok)
      ensures Moved(a, c, ctx, ok) && ctx.Below([key]).own == Inner(ctx.own, key)
    {
      BelowMoved(b, c, ctx, [key], ok);
      MovedTransitive(a, b, c, ctx, ok);
    }

    lemma BelowKnown(ctx: Context, tokens: Pointer)
      requires Known(ctx)
      ensures Known(ctx.Below(tokens))
    {
    }

    lemma BelowMoved(a: Registry, b: Registry, ctx: Context, tokens: Pointer, ok: bool)
      requires Moved(a, b, ctx.Below(tokens), ok)
      ensures Moved(a, b, ctx, ok)
    {
    }

    lemma SameKeywordsMoved(a: Registry, b: Registry, ctx: Context)
      requires Grew(a, b) && SameKeywords(a, b) && StoredFor(a, b, ctx.seed)
      ensures Moved(a, b, ctx, true)
    {
      SameKeywordsUndisturbed(a, b, ctx.active);
      if plan.Some? { SameKeywordsLasting(plan.value, a, b); }
    }

    /** What an error of compilation means: a checker is missing, some pattern is no regular
        expression, the places or the location named are what they should be. Errors of loading do
        not occur, and neither does `Entangled` when the documents are tidy. */
    ghost predicate MakeError(e: CompileError) {
      && !e.NoLoader? && !e.Undefined?
      && (e.NoChecker? ==> !hasFormatCheck || !hasContentCheck)
      && (e.BadRegex? ==> exists p :: !validPattern(p))
      && (e.Entangled? ==> plan.None? && Overlap(e.asked, e.compiled) && e.compiled in Places())
      && (e.Outside? ==> e.location !in universe)
    }

    // ---------------------------------------------------------------- primitive changes

    lemma AddFine(reg: Registry, node: Node)
      requires Fine(reg) && NodeClosed(node, |reg.nodes|) && (node.Reference? ==> node.target.Some?)
      ensures Fine(AddNode(reg, node)) && Grew(reg, AddNode(reg, node)) && SameKeywords(reg, AddNode(reg, node))
    {
      AddNodeKeeps(reg, node);
      SourcesGrow(reg, AddNode(reg, node));
    }

    method AddObject(node: Node) returns (n: Id)
      requires Valid() && NodeClosed(node, |nodes|) && (node.Reference? ==> node.target.Some?)
      modifies this
      ensures Valid() && Grew(old(View()), View()) && SameKeywords(old(View()), View()) && root == old(root)
      ensures n == old(|nodes|) && View() == AddNode(old(View()), node)
    {
      AddFine(View(), node);
      n := |nodes|;
      nodes := nodes + [node];
      assert View() == AddNode(old(View()), node);
    }

    lemma StoreFine(reg: Registry, key: Key, s: Id, source: Source)
      requires Fine(reg) && key.location in universe && Storable(reg, key, s, source) && SeedAllowed(source.seed)
      requires Free(reg, key)
      ensures var r := Store(reg, key, s, source);
        && Fine(r) && Grew(reg, r) && SameKeywords(reg, r) && StoredFor(reg, r, source.seed)
        && FiledAt(r, key, source.scope, source.doc, s)
      ensures var file := File(reg.files, key.location);
        key.fragment in file.unresolved ==>
          file.unresolved[key.fragment] < |reg.nodes| && reg.nodes[file.unresolved[key.fragment]].Reference?
    {
      InsertKeeps(reg, key, s, source);
      SeedsStay(reg, key, s, source);
      if plan.Some? { StoreTidy(plan.value, reg, key, s, source); }
      StillFine(reg, Store(reg, key, s, source), key.location);
    }

    lemma SeedsStay(reg: Registry, key: Key, s: Id, source: Source)
      requires SeedsAllowed(reg) && SeedAllowed(source.seed)
      ensures SeedsAllowed(Store(reg, key, s, source))
    {
    }

    lemma StillFine(reg: Registry, after: Registry, location: string)
      requires Fine(reg) && location in universe
      requires Consistent(after) && SourcesOk(after) && SeedsAllowed(after)
      requires plan.Some? ==> Tidy(plan.value, after.files)
      requires after.files.Keys == reg.files.Keys + {location}
      requires forall l | l in after.files :: after.files[l].unknown == File(reg.files, l).unknown
      ensures Fine(after)
    {
      FilesStay(reg.files, after.files, location, universe, texts);
    }

    /** `insert`: a URI is used once; a reference waiting for it gets its target. */
    method Insert(uri: U.Uri, s: Id, ghost source: Source) returns (r: Result<(), CompileError>)
      requires Valid() && U.Location(uri) in universe && Storable(View(), KeyOf(uri), s, source)
      requires SeedAllowed(source.seed)
      modifies this
      ensures Valid() && Grew(old(View()), View()) && SameKeywords(old(View()), View()) && root == old(root)
      ensures StoredFor(old(View()), View(), source.seed)
      ensures r.Err? <==> KeyOf(uri).fragment in File(old(files), KeyOf(uri).location).schemas
      ensures r.Ok? ==> View() == Store(old(View()), KeyOf(uri), s, source)
      ensures r.Ok? ==> FiledAt(View(), KeyOf(uri), source.scope, source.doc, s)
      ensures r.Err? ==> r.error == AlreadyInserted && View() == old(View())
    {
      var location, fragment := U.Location(uri), U.Fragment(uri);
      var file := File(files, location);
      if fragment in file.schemas {
        return Err(AlreadyInserted);
      }
      ghost var before := View();
      StoreFine(before, KeyOf(uri), s, source);
      StoreIn(location, fragment, s, source);
      assert View() == Store(before, KeyOf(uri), s, source);
      assert Fine(View());
      return Ok(());
    }

    /** The assignments of `insert`. */
    method StoreIn(location: string, fragment: string, s: Id, ghost source: Source)
      requires var file := File(files, location);
        fragment in file.unresolved ==>
          file.unresolved[fragment] < |nodes| && nodes[file.unresolved[fragment]].Reference?
      modifies `nodes, `files, `sources
      ensures View() == Store(old(View()), Key(location, fragment), s, source)
    {
      var file := File(files, location);
      var schemas := file.schemas[fragment := s];
      sources := sources[Key(location, fragment) := source.(born := |sources|)];
      if fragment in file.unresolved {
        var waiting := file.unresolved[fragment];
        nodes := nodes[waiting := nodes[waiting].(target := Some(s))];
        files := files[location := file.(schemas := schemas, unresolved := file.unresolved - {fragment})];
      } else {
        assert file.unresolved - {fragment} == file.unresolved;
        files := files[location := file.(schemas := schemas)];
      }
    }

    lemma ReferFine(reg: Registry, key: Key, id: string)
      requires Fine(reg) && key.location in universe && Free(reg, key)
      requires key.fragment !in File(reg.files, key.location).unresolved
      requires plan.Some? ==> Waitable(plan.value, key)
      ensures var r := AddReference(reg, key, id); Fine(r) && Grew(reg, r) && SameKeywords(reg, r)
    {
      ReferenceKeeps(reg, key, id);
      FilesStay(reg.files, AddReference(reg, key, id).files, key.location, universe, texts);
      if plan.Some? { ReferenceTidy(plan.value, reg, key, id); }
    }

    lemma WaitsAlready(key: Key)
      requires Valid() && key.fragment in File(files, key.location).unresolved
      ensures WaitingOk(View(), key, files[key.location].unresolved[key.fragment])
    {
      assert FileOk(View(), key.location);
    }

    /** The reference waiting for a URI, created if there is none. */
    method WaitingReference(uri: U.Uri) returns (n: Id)
      requires Valid() && U.Location(uri) in universe
      requires KeyOf(uri).fragment !in File(files, KeyOf(uri).location).schemas
      requires plan.Some? ==> Waitable(plan.value, KeyOf(uri))
      modifies this
      ensures Valid() && Grew(old(View()), View()) && SameKeywords(old(View()), View()) && root == old(root)
      ensures sources == old(sources)
      ensures n < |nodes| && n in handed && handed[n] == KeyOf(uri) && WaitsFor(old(View()), View(), KeyOf(uri), n)
    {
      var location, fragment := U.Location(uri), U.Fragment(uri);
      if fragment in File(files, location).unresolved {
        WaitsAlready(KeyOf(uri));
        n := files[location].unresolved[fragment];
      } else {
        ReferFine(View(), KeyOf(uri), location + " # " + fragment);
        n := ReferIn(location, fragment, location + " # " + fragment);
      }
    }

    method ReferIn(location: string, fragment: string, id: string) returns (n: Id)
      modifies `nodes, `files, `handed
      ensures n == old(|nodes|) && View() == AddReference(old(View()), Key(location, fragment), id)
    {
      var file := File(files, location);
      n := |nodes|;
      nodes := nodes + [Reference(id, Null, None)];
      files := files[location := file.(unresolved := file.unresolved[fragment := n])];
      handed := handed[n := Key(location, fragment)];
    }

    lemma {:induction false} UnknownFine(reg: Registry, location: string, unknown: Json)
      requires Fine(reg) && location in universe && WellFormed(unknown) && TextsIn(unknown)
      requires plan.Some? ==> Tidy(plan.value, SetUnknown(reg, location, unknown).files)
      ensures Fine(SetUnknown(reg, location, unknown)) && Grew(reg, SetUnknown(reg, location, unknown))
    {
      SetUnknownKeeps(reg, location, unknown);
      SourcesGrow(reg, SetUnknown(reg, location, unknown));
    }

    method StoreUnknown(location: string, unknown: Json)
      requires Valid() && location in universe && WellFormed(unknown) && TextsIn(unknown)
      requires plan.Some? ==> Tidy(plan.value, SetUnknown(View(), location, unknown).files)
      modifies this
      ensures Valid() && Grew(old(View()), View()) && root == old(root)
      ensures View() == SetUnknown(old(View()), location, unknown)
    {
      UnknownFine(View(), location, unknown);
      files := files[location := File(files, location).(unknown := unknown)];
      assert View() == SetUnknown(old(View()), location, unknown);
    }

    // ---------------------------------------------------------------- registering a schema

    /** The unknown keywords of a schema are tidy. */
    ghost predicate LeftOk(ctx: Context, us: seq<U.Uri>, leftover: Json)
    {
      plan.Some? && leftover.Object? && leftover.members != [] ==>
        BoundOf(plan.value, ctx.seed) == plan.value.limit && LeftTidy(plan.value, us, leftover.members)
    }

    /** The members of an object can be entered under a URI as unknown keywords. */
    ghost predicate EntersOk(ctx: Context, uri: U.Uri, parent: Json)
      requires parent.Object?
      reads `files
    {
      plan.Some? && parent.members != [] ==>
        && BoundOf(plan.value, ctx.seed) == plan.value.limit && KeepsTidy(plan.value, uri, parent.members)
        && HeldUpTo(plan.value, files, uri)
    }

    /** The same of one of them. */
    ghost predicate KeepOk(ctx: Context, uri: U.Uri, key: string, value: Json)
      reads `files
    {
      plan.Some? ==>
        && BoundOf(plan.value, ctx.seed) == plan.value.limit && KeepTidy(plan.value, uri, key, value)
        && HeldUpTo(plan.value, files, uri)
    }

    /** Stores a schema under all its URIs, and for each its leftover members as unknown keywords.
        A keyword that becomes a schema on the way is erased from the members in place. */
    method Register(s: Id, leftover: Json, ctx: Context, ghost source: Source, us: seq<U.Uri>)
      returns (r: Result<(), CompileError>, left: Json)
      requires Valid() && Known(ctx) && us == FinalScope(source.scope, source.doc) && InUniverse(universe, us)
      requires Denotes(View(), source.scope, source.doc, s)
      requires source.seed == ctx.seed && Under(ctx.seed, source.scope, source.doc)
      requires Considered(leftover) && LeftOk(ctx, us, leftover)
      modifies this
      ensures Valid() && Moved(old(View()), View(), ctx, r.Ok?) && root == old(root) && Shrunk(leftover, left)
      ensures r.Err? ==> MakeError(r.error)
      ensures r.Ok? ==> Entering(old(View()), View(), ctx.own, us, |us|, s, source, leftover)
      decreases Places() - ctx.active, Size(leftover), 30
    {
      ghost var before := View();
      left := leftover;
      r := Ok(());
      for i := 0 to |us|
        invariant Valid() && Moved(before, View(), ctx, true) && root == old(root) && Shrunk(leftover, left) && r.Ok?
        invariant i == 0 ==> left == leftover
        invariant Entering(before, View(), ctx.own, us, i, s, source, leftover)
      {
        ghost var v, l := View(), left;
        StorableStill(before, v, us, source, i, s);
        LeftOkAt(ctx, us, i, leftover, left);
        r, left := RegisterOne(us[i], s, left, ctx, source);
        MovedTransitive(before, v, View(), ctx, r.Ok?);
        ShrunkTwice(leftover, l, left);
        if r.Err? { return; }
        OneMoreUri(before, v, View(), ctx.own, us, i, s, source, leftover, l);
      }
    }

    /** What is left for one of the URIs, with nothing that can be asked for around it. */
    ghost predicate OneLeftOk(ctx: Context, uri: U.Uri, left: Json)
    {
      plan.Some? && left.Object? && left.members != [] ==>
        && BoundOf(plan.value, ctx.seed) == plan.value.limit
        && KeepsTidy(plan.value, uri, left.members) && NoneAround(plan.value, uri)
    }

    lemma LeftOkAt(ctx: Context, us: seq<U.Uri>, i: nat, leftover: Json, left: Json)
      requires LeftOk(ctx, us, leftover) && i < |us| && Shrunk(leftover, left) && (i == 0 ==> left == leftover)
      ensures OneLeftOk(ctx, us[i], left)
    {
      if plan.Some? && left.Object? && left.members != [] {
        HasAt(left.members, 0);
        LeftKeeps(plan.value, us, i, leftover.members, left.members);
      }
    }

    method RegisterOne(uri: U.Uri, s: Id, leftover: Json, ctx: Context, ghost source: Source)
      returns (r: Result<(), CompileError>, left: Json)
      requires Valid() && Known(ctx) && U.Location(uri) in universe && Storable(View(), KeyOf(uri), s, source)
      requires source.seed == ctx.seed && Considered(leftover) && OneLeftOk(ctx, uri, leftover)
      modifies this
      ensures Valid() && Moved(old(View()), View(), ctx, r.Ok?) && root == old(root) && Shrunk(leftover, left)
      ensures r.Err? ==> MakeError(r.error)
      ensures r.Ok? ==> FiledAt(View(), KeyOf(uri), source.scope, source.doc, s)
      ensures r.Ok? ==> RegisteredAs(old(View()), View(), ctx.own, uri, s, source, leftover)
      decreases Places() - ctx.active, Size(leftover), 29
    {
      ghost var before := View();
      left := leftover;
      r := Insert(uri, s, source);
      ghost var v := View();
      SameKeywordsMoved(before, v, ctx);
      if r.Ok? && leftover.Object? {
        EntersNow(ctx, uri, leftover);
        r, left := InsertUnknowns(uri, leftover, ctx);
        MovedTransitive(before, v, View(), ctx, r.Ok?);
        if r.Ok? { RegisteredNow(before, v, View(), ctx.own, uri, s, source, leftover); }
      }
    }

    lemma EntersNow(ctx: Context, uri: U.Uri, left: Json)
      requires OneLeftOk(ctx, uri, left) && left.Object?
      ensures EntersOk(ctx, uri, left)
    {
    }

    /** `insert_unknown_keyword` for every member of an object. */
    method InsertUnknowns(uri: U.Uri, parent: Json, ctx: Context) returns (r: Result<(), CompileError>, left: Json)
      requires Valid() && Known(ctx) && U.Location(uri) in universe && parent.Object? && Considered(parent)
      requires EntersOk(ctx, uri, parent)
      modifies this
      ensures Valid() && Moved(old(View()), View(), ctx, r.Ok?) && root == old(root) && Shrunk(parent, left)
      ensures r.Err? ==> MakeError(r.error)
      ensures r.Ok? ==> Walked(old(View()), View(), ctx.own, uri, parent.members, |parent.members|)
      decreases Places() - ctx.active, Size(parent), 27
    {
      ghost var before := View();
      left := parent;
      r := Ok(());
      for i := 0 to |parent.members|
        invariant Valid() && Moved(before, View(), ctx, true) && root == old(root) && LeftFrom(parent, left, i)
        invariant r.Ok? && EntersOk(ctx, uri, parent)
        invariant Walked(before, View(), ctx.own, uri, parent.members, i)
      {
        ghost var v := View();
        var m := parent.members[i];
        assert MemberTexts(m) <= Texts(parent);
        var l;
        r, l := InsertUnknownKeyword(uri, m.key, m.value, ctx);
        MovedTransitive(before, v, View(), ctx, r.Ok?);
        NextLeft(parent, left, i, l);
        left := Object(left.members[i := Member(m.key, l)]);
        if r.Err? { return; }
        EntryStill(v, ctx, uri, parent);
        WalkedMore(before, v, View(), ctx.own, uri, parent.members, i);
      }
    }

    lemma EntryStill(v: Registry, ctx: Context, uri: U.Uri, parent: Json)
      requires parent.Object? && Moved(v, View(), ctx, true)
      requires plan.Some? && parent.members != [] ==>
        && BoundOf(plan.value, ctx.seed) == plan.value.limit && KeepsTidy(plan.value, uri, parent.members)
        && HeldUpTo(plan.value, v.files, uri)
      ensures EntersOk(ctx, uri, parent)
    {
      if plan.Some? && parent.members != [] { HeldStill(plan.value, v.files, files, uri); }
    }

    /** A keyword nobody consumed becomes a schema if a reference is waiting for it, or is kept
        for later; then the same for its own members. */
    method InsertUnknownKeyword(uri: U.Uri, key: string, value: Json, ctx: Context)
      returns (r: Result<(), CompileError>, left: Json)
      requires Valid() && Known(ctx) && U.Location(uri) in universe && WellFormed(value)
      requires forall t | t in MemberTexts(Member(key, value)) :: t in texts
      requires KeepOk(ctx, uri, key, value)
      modifies this
      ensures Valid() && Moved(old(View()), View(), ctx, r.Ok?) && root == old(root) && Shrunk(value, left)
      ensures r.Err? ==> MakeError(r.error)
      ensures r.Ok? ==> Entered(old(View()), View(), ctx.own, uri, Member(key, value))
      decreases Places() - ctx.active, Size(value), 34
    {
      ghost var before := View();
      r, left := KeepOrMake(uri, key, value, ctx);
      if r.Ok? {
        ghost var v, l := View(), left;
        BelowKnown(ctx, [key]);
        ShrunkConsidered(key, value, left);
        r, left := InsertInner(U.Append(uri, key), left, ctx.Below([key]));
        KeywordMoved(before, v, View(), ctx, key, r.Ok?);
        ShrunkTwice(value, l, left);
        if r.Ok? { EnteredNow(before, v, View(), ctx.own, uri, key, value, l); }
      }
    }

    lemma {:induction false} ShrunkConsidered(key: string, value: Json, left: Json)
      requires Shrunk(value, left) && forall t | t in MemberTexts(Member(key, value)) :: t in texts
      ensures Considered(left)
    {
    }

    /** The members of an unknown keyword, if it has any. */
    method InsertInner(uri: U.Uri, parent: Json, ctx: Context) returns (r: Result<(), CompileError>, left: Json)
      requires Valid() && Known(ctx) && U.Location(uri) in universe && Considered(parent)
      requires parent.Object? ==> EntersOk(ctx, uri, parent)
      modifies this
      ensures Valid() && Moved(old(View()), View(), ctx, r.Ok?) && root == old(root) && Shrunk(parent, left)
      ensures r.Err? ==> MakeError(r.error)
      ensures r.Ok? ==>
        if parent.Object? then Walked(old(View()), View(), ctx.own, uri, parent.members, |parent.members|)
        else View() == old(View())
      decreases Places() - ctx.active, Size(parent), 28
    {
      if parent.Object? {
        r, left := InsertUnknowns(uri, parent, ctx);
      } else {
        NothingMoved(View(), ctx);
        return Ok(()), parent;
      }
    }

    method KeepOrMake(uri: U.Uri, key: string, value: Json, ctx: Context)
      returns (r: Result<(), CompileError>, left: Json)
      requires Valid() && Known(ctx) && U.Location(uri) in universe && WellFormed(value)
      requires forall t | t in MemberTexts(Member(key, value)) :: t in texts
      requires KeepOk(ctx, uri, key, value)
      modifies this
      ensures Valid() && Moved(old(View()), View(), ctx, r.Ok?) && root == old(root) && Shrunk(value, left)
      ensures r.Err? ==> MakeError(r.error)
      ensures r.Ok? ==> KeptOrMade(old(View()), View(), ctx.own, uri, key, value, left)
      ensures r.Ok? && left.Object? ==> EntersOk(ctx.Below([key]), U.Append(uri, key), left)
      decreases Places() - ctx.active, Size(value), 33
    {
      var location := U.Location(uri);
      var newUri := U.Append(uri, key);
      if S.PointerText(newUri.pointer) in File(files, location).unresolved {
        r, left := MakeAwaited(uri, key, value, ctx);
      } else if ctx.own == Some(Place(location, uri.pointer)) {
        return Ok(()), value;
      } else {
        r := Keep(uri, key, value, ctx);
        left := value;
        if r.Ok? { EntryInside(old(View()), ctx, uri, key, value); }
      }
    }

    /** A keyword that a reference is waiting for is compiled, under the URI it has here. */
    method MakeAwaited(uri: U.Uri, key: string, value: Json, ctx: Context)
      returns (r: Result<(), CompileError>, left: Json)
      requires Valid() && Known(ctx) && U.Location(uri) in universe && WellFormed(value)
      requires forall t | t in MemberTexts(Member(key, value)) :: t in texts
      requires KeepOk(ctx, uri, key, value)
      requires S.PointerText(U.Append(uri, key).pointer) in File(files, U.Location(uri)).unresolved
      modifies this
      ensures Valid() && Moved(old(View()), View(), ctx, r.Ok?) && root == old(root) && Shrunk(value, left)
      ensures r.Err? ==> MakeError(r.error)
      ensures r.Ok? ==> Shrunk(Leftover(value), left)
      ensures r.Ok? ==> exists n :: Placed(View(), Scope([U.Append(uri, key)], []), value, n)
      ensures r.Ok? && left.Object? && plan.Some? ==> left.members == []
      decreases Places() - ctx.active, Size(value), 32
    {
      ghost var before := View();
      var newUri := U.Append(uri, key);
      var inner := ctx.Below([key]).(seed := KeywordSeed(newUri, value));
      AwaitedKnown(uri, key, value, ctx);
      AwaitedUnder(uri, key, value);
      var made;
      made, left := Make(value, [], [newUri], inner);
      AwaitedMoved(before, View(), ctx, newUri, value, inner, made);
      if made.Err? { return Err(made.error), value; }
      AwaitedLeft(value, left);
      r := Ok(());
    }

    lemma {:induction false} AwaitedMoved(a: Registry, b: Registry, ctx: Context, uri: U.Uri, value: Json,
          inner: Context,
          made: Result<Id, CompileError>)
      requires Moved(a, b, inner, made.Ok?) && ctx.active == inner.active && inner.seed == KeywordSeed(uri, value)
      requires made.Ok? ==> Placed(b, Scope([uri], []), value, made.value)
      ensures Moved(a, b, ctx, made.Ok?)
    {
      if made.Ok? { assert KeywordPlaced(b, inner.seed); }
      InnerMoved(a, b, ctx, inner, made.Ok?);
    }

    lemma {:induction false} AwaitedLeft(value: Json, left: Json)
      requires WellFormed(value) && Shrunk(Leftover(value), left)
      ensures Shrunk(value, left)
      ensures value.Object? && Leftover(value).members == [] ==> left.members == []
    {
      LeftoverShrinks(value);
      ShrunkTwice(value, Leftover(value), left);
      if value.Object? && Leftover(value).members == [] && left.members != [] { HasAt(left.members, 0); }
    }

    lemma AwaitedAsked(uri: U.Uri, key: string, value: Json, ctx: Context)
      requires Valid() && Known(ctx) && KeepOk(ctx, uri, key, value) && plan.Some?
      requires S.PointerText(U.Append(uri, key).pointer) in File(files, U.Location(uri)).unresolved
      ensures uri.identifier == "" && Scope([U.Append(uri, key)], []) == [U.Append(uri, key)]
      ensures var p := PlaceOf(U.Append(uri, key));
        && p in plan.value.asked && plan.value.asked[p].uri == U.Append(uri, key) && plan.value.asked[p].doc == value
        && SeedFits(plan.value, KeywordSeed(U.Append(uri, key), value))
    {
      var p := PlaceOf(U.Append(uri, key));
      assert p == Place(U.Location(uri), uri.pointer + [key]);
      PlainScope(U.Append(uri, key));
      assert Waitable(plan.value, KeyAt(p));
      CoveredOverlaps(plan.value.kept, p, p);
      assert KeptAs(plan.value.asked[p], p, p, uri, value);
      assert p.pointer[|p.pointer|..] == [];
    }

    lemma AwaitedKnown(uri: U.Uri, key: string, value: Json, ctx: Context)
      requires Valid() && Known(ctx) && U.Location(uri) in universe && KeepOk(ctx, uri, key, value)
      requires S.PointerText(U.Append(uri, key).pointer) in File(files, U.Location(uri)).unresolved
      ensures Known(ctx.Below([key]).(seed := KeywordSeed(U.Append(uri, key), value)))
      ensures plan.Some? && value.Object? ==> Leftover(value).members == []
    {
      if plan.Some? {
        AwaitedAsked(uri, key, value, ctx);
        ExpectedKnown(U.Append(uri, key), value);
        AwaitedInPlan(uri, key, value, ctx);
      }
    }

    lemma AwaitedInPlan(uri: U.Uri, key: string, value: Json, ctx: Context)
      requires plan.Some? && InPlan(ctx) && BoundOf(plan.value, ctx.seed) == plan.value.limit
      requires SeedTidy(plan.value, KeywordSeed(U.Append(uri, key), value))
      requires BoundOf(plan.value, KeywordSeed(U.Append(uri, key), value)) < plan.value.limit
      ensures InPlan(ctx.Below([key]).(seed := KeywordSeed(U.Append(uri, key), value)))
    {
    }

    lemma AwaitedUnder(uri: U.Uri, key: string, value: Json)
      requires U.Location(uri) in universe
      ensures Under(KeywordSeed(U.Append(uri, key), value), Scope([U.Append(uri, key)], []), value)
      ensures InUniverse(universe, [U.Append(uri, key)])
    {
    }

    /** A keyword that may be asked for is tidy, and holds no unknown keywords. */
    lemma ExpectedKnown(uri: U.Uri, value: Json)
      requires plan.Some? && PlanOk(plan.value) && PlaceOf(uri) in plan.value.asked
      requires plan.value.asked[PlaceOf(uri)].uri == uri && plan.value.asked[PlaceOf(uri)].doc == value
      ensures var seed := Seed(Keyword, [uri], value);
        && KeywordSeed(uri, value) == seed && SeedTidy(plan.value, seed)
        && BoundOf(plan.value, seed) == plan.value.asked[PlaceOf(uri)].rank < plan.value.limit
      ensures value.Object? ==> Leftover(value).members == []
    {
      var seed := Seed(Keyword, [uri], value);
      assert ExpectedOk(plan.value, PlaceOf(uri), plan.value.asked[PlaceOf(uri)]);
      PlainScope(uri);
      assert Under(seed, [uri], value);
      assert SchemaTidy(plan.value, [uri], value, BoundOf(plan.value, seed));
    }

    lemma InnerMoved(a: Registry, b: Registry, ctx: Context, inner: Context, ok: bool)
      requires Moved(a, b, inner, ok) && ctx.active <= inner.active && (ok ==> KeywordPlaced(b, inner.seed))
      ensures Moved(a, b, ctx, ok)
    {
      if ok { StoredForPlaced(a, b, inner.seed, ctx.seed); }
    }

    /** The members of a keyword that was kept. */
    lemma {:induction false} EntryInside(a: Registry, ctx: Context, uri: U.Uri, key: string, value: Json)
      requires Moved(a, View(), ctx, true) && WellFormed(value)
      requires plan.Some? ==>
        && BoundOf(plan.value, ctx.seed) == plan.value.limit && KeepTidy(plan.value, uri, key, value)
        && HeldUpTo(plan.value, a.files, uri)
      requires Seen(files, Place(U.Location(uri), uri.pointer + [key])) == Found(value)
      ensures value.Object? ==> EntersOk(ctx.Below([key]), U.Append(uri, key), value)
    {
      if plan.Some? && value.Object? {
        KeptHeld(plan.value, a.files, files, uri, key, value);
        forall i | 0 <= i < |value.members|
          ensures KeepTidy(plan.value, U.Append(uri, key), value.members[i].key, value.members[i].value)
        {
          KeepTidyInside(plan.value, uri, key, value.members, i);
        }
      }
    }

    /** Keeps a keyword under its pointer, but for places that overlap one being compiled. */
    method Keep(uri: U.Uri, key: string, value: Json, ctx: Context) returns (r: Result<(), CompileError>)
      requires Valid() && Known(ctx) && U.Location(uri) in universe && WellFormed(value)
      requires forall t | t in MemberTexts(Member(key, value)) :: t in texts
      requires KeepOk(ctx, uri, key, value)
      modifies this
      ensures Valid() && Moved(old(View()), View(), ctx, true) && root == old(root)
      ensures r.Err? ==> MakeError(r.error) && View() == old(View())
      ensures r.Ok? <==>
        && Apart(Place(U.Location(uri), uri.pointer + [key]), ctx.active)
        && PutPath(File(old(files), U.Location(uri)).unknown, uri.pointer, key, value).Some?
      ensures r.Ok? ==> View() == SetUnknown(old(View()), U.Location(uri),
        PutPath(File(old(files), U.Location(uri)).unknown, uri.pointer, key, value).value)
      ensures r.Ok? ==> Seen(files, Place(U.Location(uri), uri.pointer + [key])) == Found(value)
    {
      var location := U.Location(uri);
      var place := Place(location, uri.pointer + [key]);
      ghost var before := View();
      NothingMoved(before, ctx);
      var touched := FindOverlap(place, ctx.active);
      if touched.Some? { return Err(Entangled(place, touched.value)); }
      var unknown := PutPath(File(files, location).unknown, uri.pointer, key, value);
      if unknown.None? { return Err(TypeError); }
      PutPathIn(location, uri.pointer, key, value);
      KeptElsewhere(before, location, uri.pointer, key, value, ctx.active);
      PutPathFound(File(files, location).unknown, uri.pointer, key, value);
      KeepTidied(uri, key, value, ctx);
      StoreUnknown(location, unknown.value);
      return Ok(());
    }

    lemma NothingMoved(a: Registry, ctx: Context)
      ensures Moved(a, a, ctx, true)
    {
    }

    lemma {:induction false} KeepTidied(uri: U.Uri, key: string, value: Json, ctx: Context)
      requires Valid() && KeepOk(ctx, uri, key, value)
      requires PutPath(File(files, U.Location(uri)).unknown, uri.pointer, key, value).Some?
      ensures plan.Some? ==>
        var after := SetUnknown(View(), U.Location(uri),
          PutPath(File(files, U.Location(uri)).unknown, uri.pointer, key, value).value).files;
        Tidy(plan.value, after) && Lasting(plan.value, files, after)
    {
      if U.Location(uri) in files { assert FileOk(View(), U.Location(uri)); }
      if plan.Some? { KeptTidy(plan.value, files, uri, key, value); }
    }

    method FindOverlap(place: Place, active: set<Place>) returns (o: Option<Place>)
      ensures o.None? <==> Apart(place, active)
      ensures o.Some? ==> o.value in active && Overlap(place, o.value)
    {
      if Apart(place, active) { return None; }
      var p :| p in active && Overlap(p, place);
      return Some(p);
    }

    lemma {:induction false} PutPathIn(location: string, tokens: seq<string>, key: string, value: Json)
      requires Valid() && WellFormed(value) && forall t | t in MemberTexts(Member(key, value)) :: t in texts
      requires PutPath(File(files, location).unknown, tokens, key, value).Some?
      ensures WellFormed(PutPath(File(files, location).unknown, tokens, key, value).value)
      ensures TextsIn(PutPath(File(files, location).unknown, tokens, key, value).value)
    {
      if location in files { assert FileOk(View(), location); }
      assert Texts(Null) == {};
      PutPathKeeps(File(files, location).unknown, tokens, key, value);
    }

    // ---------------------------------------------------------------- references

    /** What a reference asks for is foreseen. */
    ghost predicate AskOk(ctx: Context, uri: U.Uri)
    {
      plan.Some? ==> AskTidy(plan.value, uri, BoundOf(plan.value, ctx.seed))
    }

    /** `get_or_create_ref`: the schema under the URI, an unknown keyword turned into one, or a
        reference that waits. A keyword that is being compiled in place is not looked into. */
    method GetOrCreateRef(uri: U.Uri, ctx: Context) returns (r: Result<Id, CompileError>)
      requires Valid() && Known(ctx) && U.Location(uri) in universe && OneFragment(uri)
      requires uri.pointer != [] ==> Place(U.Location(uri), uri.pointer) in Places()
      requires AskOk(ctx, uri)
      modifies this
      ensures Valid() && Moved(old(View()), View(), ctx, r.Ok?) && root == old(root)
      ensures r.Err? ==> MakeError(r.error)
      ensures r.Ok? ==> r.value < |nodes| && RefersTo(View(), KeyOf(uri), r.value, |sources|)
      ensures r.Ok? ==> GivenOut(old(View()), View(), uri, r.value)
      ensures LooksInside(old(View()), uri, ctx.active) ==> r.Err? && r.error.Entangled?
      ensures r.Err? && r.error.Entangled? ==>
        LooksInside(old(View()), uri, ctx.active) || MadeInPlace(old(View()), uri)
      decreases Places() - ctx.active, 0, 2
    {
      var location, fragment := U.Location(uri), U.Fragment(uri);
      var file := File(files, location);
      if fragment in file.schemas {
        StoredRefers(KeyOf(uri), file.schemas[fragment], ctx);
        return Ok(file.schemas[fragment]);
      }
      if uri.pointer != [] {
        var place, found := Place(location, uri.pointer), At(file.unknown, uri.pointer);
        if !found.OutOfRange? {
          AskedExpected(uri, ctx);
          var touched := FindOverlap(place, ctx.active);
          if touched.Some? { return Err(Entangled(place, touched.value)); }
        }
        if found.ParseError? { return Err(BadIndex); }
        if found.Found? {
          r := TurnIntoSchema(uri, found.json, ctx);
          return;
        }
      }
      ghost var before := View();
      AskAwaits(uri, ctx);
      var n := WaitingReference(uri);
      SameKeywordsMoved(before, View(), ctx);
      return Ok(n);
    }

    lemma StoredRefers(key: Key, n: Id, ctx: Context)
      requires Valid() && Stored(View(), key, n)
      ensures n < |nodes| && RefersTo(View(), key, n, |sources|) && Moved(View(), View(), ctx, true)
    {
      assert FileOk(View(), key.location);
      assert SourceOk(View(), key, n, sources[key]);
    }

    lemma AskAwaits(uri: U.Uri, ctx: Context)
      requires AskOk(ctx, uri) && OneFragment(uri)
      ensures plan.Some? ==> Waitable(plan.value, KeyOf(uri))
    {
      if plan.Some? { AskWaitable(plan.value, uri, BoundOf(plan.value, ctx.seed)); }
    }

    /** A keyword that is looked at is one of those foreseen, and lies apart from those being compiled. */
    ghost predicate Foreseen(ctx: Context, uri: U.Uri, subschema: Json)
    {
      plan.Some? ==>
        && PlaceOf(uri) in plan.value.asked && plan.value.asked[PlaceOf(uri)].uri == uri
        && plan.value.asked[PlaceOf(uri)].doc == subschema
        && plan.value.asked[PlaceOf(uri)].rank < BoundOf(plan.value, ctx.seed)
    }

    lemma AskedExpected(uri: U.Uri, ctx: Context)
      requires Valid() && Known(ctx) && AskOk(ctx, uri) && uri.pointer != [] && uri.identifier == ""
      requires Free(View(), KeyOf(uri)) && !Seen(files, PlaceOf(uri)).OutOfRange?
      ensures plan.Some? ==> Apart(PlaceOf(uri), ctx.active) && Seen(files, PlaceOf(uri)).Found?
      ensures Seen(files, PlaceOf(uri)).Found? ==> Foreseen(ctx, uri, Seen(files, PlaceOf(uri)).json)
    {
      if plan.Some? {
        AskedApart(plan.value, files, uri, BoundOf(plan.value, ctx.seed), ctx.active);
        assert FreeAt(files, PlaceOf(uri));
      }
    }

    /** An unknown keyword, compiled in place: it stands in the tree as before. */
    method MakeInPlace(uri: U.Uri, subschema: Json, ctx: Context) returns (r: Result<Id, CompileError>, left: Json)
      requires Valid() && Known(ctx) && U.Location(uri) in universe && uri.identifier == ""
      requires Place(U.Location(uri), uri.pointer) in Places() && Apart(Place(U.Location(uri), uri.pointer), ctx.active)
      requires KeywordAt(View(), Place(U.Location(uri), uri.pointer)) == Found(subschema)
      requires Foreseen(ctx, uri, subschema)
      modifies this
      ensures Valid() && Moved(old(View()), View(), ctx, r.Ok?) && root == old(root)
      ensures r.Err? ==> MakeError(r.error)
      ensures KeywordAt(View(), Place(U.Location(uri), uri.pointer)) == Found(subschema)
      ensures r.Ok? ==> r.value < |nodes| && LoadedWith(View(), uri, subschema, r.value)
      ensures r.Ok? ==> Shrunk(Leftover(subschema), left) && Considered(left) && (left.Object? || left.Boolean?)
      decreases Places() - ctx.active, 0, 0
    {
      ghost var before := View();
      var place := Place(U.Location(uri), uri.pointer);
      UnknownPartIn(U.Location(uri), uri.pointer);
      PlainScope(uri);
      var inner := Context(Some(place), ctx.active + {place}, KeywordSeed(uri, subschema));
      InPlaceKnown(uri, subschema, ctx);
      r, left := Make(subschema, [], [uri], inner);
      assert place in inner.active;
      InnerMoved(before, View(), ctx, inner, r.Ok?);
      if r.Ok? {
        MadeAlone(View(), uri, subschema, r.value);
        LeftoverKeeps(subschema);
      }
    }

    lemma InPlaceKnown(uri: U.Uri, subschema: Json, ctx: Context)
      requires Valid() && Known(ctx) && uri.identifier == "" && Foreseen(ctx, uri, subschema)
      requires PlaceOf(uri) in Places()
      ensures Known(Context(Some(PlaceOf(uri)), ctx.active + {PlaceOf(uri)}, KeywordSeed(uri, subschema)))
      ensures Under(KeywordSeed(uri, subschema), [uri], subschema)
    {
      PlainScope(uri);
      if plan.Some? {
        ExpectedKnown(uri, subschema);
        InPlacePlanned(uri, subschema, ctx);
      }
    }

    lemma InPlacePlanned(uri: U.Uri, subschema: Json, ctx: Context)
      requires plan.Some? && InPlan(ctx) && PlaceOf(uri) in plan.value.asked
      requires var bound := BoundOf(plan.value, KeywordSeed(uri, subschema));
        && SeedTidy(plan.value, KeywordSeed(uri, subschema)) && bound == plan.value.asked[PlaceOf(uri)].rank
        && bound < BoundOf(plan.value, ctx.seed)
      ensures InPlan(Context(Some(PlaceOf(uri)), ctx.active + {PlaceOf(uri)}, KeywordSeed(uri, subschema)))
    {
    }

    /** An unknown keyword becomes a schema; what compiling it consumed is gone from the keyword. */
    method TurnIntoSchema(uri: U.Uri, subschema: Json, ctx: Context) returns (r: Result<Id, CompileError>)
      requires Valid() && Known(ctx) && U.Location(uri) in universe && uri.identifier == ""
      requires Place(U.Location(uri), uri.pointer) in Places() && Apart(Place(U.Location(uri), uri.pointer), ctx.active)
      requires KeywordAt(View(), Place(U.Location(uri), uri.pointer)) == Found(subschema)
      requires Foreseen(ctx, uri, subschema)
      modifies this
      ensures Valid() && Moved(old(View()), View(), ctx, r.Ok?) && root == old(root)
      ensures r.Err? ==> MakeError(r.error)
      ensures r.Ok? ==> r.value < |nodes| && TurnedInto(old(View()), View(), uri, subschema, r.value)
      ensures r.Ok? ==> RefersTo(View(), KeyOf(uri), r.value, |sources|)
      decreases Places() - ctx.active, 0, 1
    {
      ghost var before := View();
      var left;
      r, left := MakeInPlace(uri, subschema, ctx);
      if r.Err? { return; }
      ghost var v := View();
      var forgotten := ForgetKeyword(uri, left, ctx);
      MovedTransitive(before, v, View(), ctx, true);
      if forgotten.Err? { return Err(forgotten.error); }
      NowTurnedInto(before, v, View(), uri, subschema, r.value, left);
      StoredRefers(KeyOf(uri), r.value, ctx);
    }

    /** Only what compiling left of a keyword stays a keyword. */
    method ForgetKeyword(uri: U.Uri, left: Json, ctx: Context) returns (r: Result<(), CompileError>)
      requires Valid() && Known(ctx) && U.Location(uri) in universe && U.Location(uri) in files
      requires Considered(left) && (left.Object? || left.Boolean?) && uri.identifier == ""
      requires Apart(Place(U.Location(uri), uri.pointer), ctx.active)
      requires !Free(View(), KeyOf(uri)) && (plan.Some? ==> PlaceOf(uri) in plan.value.asked)
      modifies this
      ensures Valid() && Moved(old(View()), View(), ctx, true) && root == old(root)
      ensures r.Err? ==> MakeError(r.error)
      ensures r.Ok? <==> Apart(Place(U.Location(uri), [U.Fragment(uri)]), ctx.active)
      ensures if r.Ok? then Forgotten(old(View()), View(), uri, left) else View() == old(View())
    {
      ghost var before := View();
      NothingMoved(before, ctx);
      var location, fragment := U.Location(uri), U.Fragment(uri);
      ForgetTidied(uri, left, ctx);
      var touched := FindOverlap(Place(location, [fragment]), ctx.active);
      if touched.Some? { return Err(Entangled(Place(location, [fragment]), touched.value)); }
      ForgetIn(location, uri.pointer, left, fragment);
      StoreUnknown(location, Forget(ReplaceAt(files[location].unknown, uri.pointer, left), fragment));
      ForgottenElsewhere(before, View(), uri, left, ctx.active);
      return Ok(());
    }

    lemma {:induction false} ForgetTidied(uri: U.Uri, left: Json, ctx: Context)
      requires Valid() && Known(ctx) && U.Location(uri) in files && uri.identifier == ""
      requires !Free(View(), KeyOf(uri)) && (plan.Some? ==> PlaceOf(uri) in plan.value.asked)
      ensures plan.Some? ==> Apart(Place(U.Location(uri), [U.Fragment(uri)]), ctx.active)
      ensures plan.Some? ==>
        var after := SetUnknown(View(), U.Location(uri),
          Forget(ReplaceAt(files[U.Location(uri)].unknown, uri.pointer, left), U.Fragment(uri))).files;
        Tidy(plan.value, after) && Lasting(plan.value, files, after)
    {
      if plan.Some? { ForgottenTidy(plan.value, files, PlaceOf(uri), left); }
    }

    lemma {:induction false} UnknownPartIn(location: string, p: Pointer)
      requires Valid() && At(File(files, location).unknown, p).Found?
      ensures WellFormed(At(File(files, location).unknown, p).json)
      ensures TextsIn(At(File(files, location).unknown, p).json)
    {
      if location in files { assert FileOk(View(), location); }
      assert Texts(Null) == {};
      AtKeeps(File(files, location).unknown, p);
    }

    lemma {:induction false} ForgetIn(location: string, p: Pointer, left: Json, fragment: string)
      requires Valid() && location in files && Considered(left) && (left.Object? || left.Boolean?)
      ensures WellFormed(Forget(ReplaceAt(files[location].unknown, p, left), fragment))
      ensures TextsIn(Forget(ReplaceAt(files[location].unknown, p, left), fragment))
    {
      assert FileOk(View(), location);
      ReplaceAtKeeps(files[location].unknown, p, left);
      ForgetKeeps(ReplaceAt(files[location].unknown, p, left), fragment);
    }

    /** A schema given by `$ref`: what the registry hands out, with the default beside it put in. */
    method MakeReference(us: seq<U.Uri>, members: seq<Member>, ctx: Context) returns (r: Result<Id, CompileError>)
      requires Valid() && Known(ctx) && InUniverse(universe, us) && TextsIn(Object(members)) && Has(members, "$ref")
      requires RefUri(us, members).Ok? ==> AskOk(ctx, RefUri(us, members).value)
      modifies this
      ensures Valid() && Moved(old(View()), View(), ctx, r.Ok?) && root == old(root)
      ensures r.Err? ==> MakeError(r.error)
      ensures r.Ok? ==> r.value < |nodes| && RefDenotes(View(), us, members, r.value, |sources|)
      decreases Places() - ctx.active, Size(Object(members)), 4
    {
      ghost var before := View();
      r := ResolveReference(us, members, ctx);
      if r.Err? || !Has(members, "default") { return; }
      var m, d := r.value, Get(members, "default");
      ghost var v := View();
      var n := PutDefault(us, m, d);
      SameKeywordsMoved(v, View(), ctx);
      MovedTransitive(before, v, View(), ctx, r.Ok?);
      r := Ok(n);
    }

    /** The schema or reference handed out for a `$ref`. */
    method ResolveReference(us: seq<U.Uri>, members: seq<Member>, ctx: Context) returns (r: Result<Id, CompileError>)
      requires Valid() && Known(ctx) && InUniverse(universe, us) && TextsIn(Object(members)) && Has(members, "$ref")
      requires RefUri(us, members).Ok? ==> AskOk(ctx, RefUri(us, members).value)
      modifies this
      ensures Valid() && Moved(old(View()), View(), ctx, r.Ok?) && root == old(root)
      ensures r.Err? ==> MakeError(r.error)
      ensures r.Ok? ==>
        && r.value < |nodes| && RefUri(us, members).Ok?
        && RefersTo(View(), KeyOf(RefUri(us, members).value), r.value, |sources|)
      decreases Places() - ctx.active, Size(Object(members)), 3
    {
      var id := RefUri(us, members);
      if id.Err? { return Err(id.error); }
      if U.Location(id.value) !in universe { return Err(Outside(U.Location(id.value))); }
      RefUriAsks(universe, texts, us, members);
      r := GetOrCreateRef(id.value, ctx);
    }

    /** `make_for_default_` */
    method PutDefault(us: seq<U.Uri>, m: Id, d: Json) returns (n: Id)
      requires Valid() && m < |nodes| && us != []
      modifies this
      ensures Valid() && Grew(old(View()), View()) && SameKeywords(old(View()), View()) && root == old(root)
      ensures sources == old(sources) && m < |nodes| && n < |nodes| && Overrides(nodes, m, d, n)
    {
      assert EntryOk(View(), m);
      if nodes[m].BooleanSchema? {
        n := m;
      } else if nodes[m].TypeSchema? {
        n := AddObject(WithDefault(nodes[m], d));
      } else {
        n := AddObject(Reference(U.Location(us[0]) + " # " + U.Fragment(us[0]), d, Some(m)));
      }
    }

    // ---------------------------------------------------------------- lists of sub-schemas

    method MakeAll(entries: seq<Entry>, us: seq<U.Uri>, ctx: Context, ghost size: nat)
      returns (r: Result<seq<Id>, CompileError>)
      requires Valid() && Known(ctx) && InUniverse(universe, us) && ListOffered(ctx.seed, us, entries)
      requires forall i | 0 <= i < |entries| ::
        Considered(entries[i].doc) && Size(entries[i].doc) < size
      modifies this
      ensures Valid() && Moved(old(View()), View(), ctx, r.Ok?) && root == old(root)
      ensures r.Err? ==> MakeError(r.error)
      ensures r.Ok? ==> AllPlaced(View(), us, entries, r.value)
      decreases Places() - ctx.active, size, 1
    {
      ghost var before := View();
      var ids := [];
      for i := 0 to |entries|
        invariant Valid() && Moved(before, View(), ctx, true) && root == old(root) && |ids| == i
        invariant AllPlaced(View(), us, entries[..i], ids)
      {
        ghost var v := View();
        BelowKnown(ctx, entries[i].at);
        var made, _ := Make(entries[i].doc, entries[i].keys, us, ctx.Below(entries[i].at));
        BelowMoved(v, View(), ctx, entries[i].at, made.Ok?);
        MovedTransitive(before, v, View(), ctx, made.Ok?);
        if made.Err? { return Err(made.error); }
        EntriesMore(v, View(), us, entries, ids, made.value);
        ids := ids + [made.value];
      }
      assert entries[..|entries|] == entries;
      return Ok(ids);
    }

    method MakeOptional(members: seq<Member>, key: string, us: seq<U.Uri>, ctx: Context)
      returns (r: Result<Option<Id>, CompileError>)
      requires Valid() && Known(ctx) && InUniverse(universe, us) && Considered(Object(members))
      requires OneOffered(ctx.seed, us, members, key)
      modifies this
      ensures Valid() && Moved(old(View()), View(), ctx, r.Ok?) && root == old(root)
      ensures r.Err? ==> MakeError(r.error)
      ensures r.Ok? ==> OptionDenotes(View(), us, members, key, r.value)
      decreases Places() - ctx.active, Size(Object(members)), 1
    {
      if Has(members, key) {
        EntriesFine(members, key);
        BelowKnown(ctx, [key]);
        ghost var before := View();
        var made, _ := Make(Get(members, key), [key], us, ctx.Below([key]));
        BelowMoved(before, View(), ctx, [key], made.Ok?);
        r := if made.Ok? then Ok(Some(made.value)) else Err(made.error);
      } else {
        r := Ok(None);
      }
    }

    // ---------------------------------------------------------------- validators of the types

    /** The string keywords have the right types, the pattern is a regular expression, and what
        needs a checker has one. */
    predicate StringFine(members: seq<Member>) {
      && OptSize(members, "maxLength").Ok? && OptSize(members, "minLength").Ok?
      && ContentOf(members).Ok? && (ContentOf(members).value.Some? ==> hasContentCheck)
      && OptString(members, "pattern").Ok?
      && (OptString(members, "pattern").value.Some? ==> validPattern(OptString(members, "pattern").value.value))
      && OptString(members, "format").Ok? && (Has(members, "format") ==> hasFormatCheck)
    }

    method MakeString(members: seq<Member>) returns (r: Result<StringRules, CompileError>)
      ensures r.Ok? ==> StringDenotes(members, r.value)
      ensures r.Ok? <==> StringFine(members)
      ensures r.Err? ==> MakeError(r.error)
    {
      var maxLength, minLength := OptSize(members, "maxLength"), OptSize(members, "minLength");
      var content := ContentOf(members);
      if maxLength.Err? || minLength.Err? || content.Err? { return Err(TypeError); }
      if content.value.Some? && !hasContentCheck { return Err(NoChecker); }
      var pattern := OptString(members, "pattern");
      if pattern.Err? { return Err(TypeError); }
      if pattern.value.Some? && !validPattern(pattern.value.value) { return Err(BadRegex); }
      if Has(members, "format") && !hasFormatCheck { return Err(NoChecker); }
      var format := OptString(members, "format");
      if format.Err? { return Err(TypeError); }
      return Ok(StringRules(minLength.value, maxLength.value, content.value, pattern.value, format.value));
    }

    predicate AllPatterns(keys: seq<string>) { forall i | 0 <= i < |keys| :: validPattern(keys[i]) }

    function BadPattern(keys: seq<string>): (e: CompileError)
      requires !AllPatterns(keys)
      ensures MakeError(e)
    {
      BadRegex
    }

    /** Schemas listed by key: `properties` or `patternProperties`. */
    method MakeProperties(members: seq<Member>, key: string, prefix: seq<string>, patterns: bool, us: seq<U.Uri>,
          ctx: Context)
      returns (r: Result<seq<Property>, CompileError>)
      requires Valid() && Known(ctx) && InUniverse(universe, us) && Considered(Object(members))
      requires Has(members, key) ==> ListOffered(ctx.seed, us, Keyed(Get(members, key), prefix, key))
      modifies this
      ensures Valid() && Moved(old(View()), View(), ctx, r.Ok?) && root == old(root)
      ensures r.Err? ==> MakeError(r.error)
      ensures r.Ok? ==> PropertiesDenote(View(), us, members, key, prefix, r.value)
      decreases Places() - ctx.active, Size(Object(members)), 2
    {
      if !Has(members, key) { return Ok([]); }
      EntriesFine(members, key);
      var d := Get(members, key);
      if patterns && !AllPatterns(Keys(d)) { return Err(BadPattern(Keys(d))); }
      var made := MakeAll(Keyed(d, prefix, key), us, ctx, Size(Object(members)));
      if made.Err? { return Err(made.error); }
      var ids, names := made.value, Keys(d);
      PropertiesNow(View(), us, members, key, prefix, ids);
      return Ok(seq(|ids|, i requires 0 <= i < |ids| => Property(names[i], ids[i])));
    }

    method MakeDependencies(members: seq<Member>, us: seq<U.Uri>, ctx: Context)
      returns (r: Result<seq<Dependency>, CompileError>)
      requires Valid() && Known(ctx) && InUniverse(universe, us) && Considered(Object(members))
      requires Offered(ctx.seed, us, members, Objects)
      modifies this
      ensures Valid() && Moved(old(View()), View(), ctx, r.Ok?) && root == old(root)
      ensures r.Err? ==> MakeError(r.error)
      ensures r.Ok? ==> DependenciesDenote(View(), us, members, r.value)
      decreases Places() - ctx.active, Size(Object(members)), 2
    {
      if !Has(members, "dependencies") { return Ok([]); }
      EntriesFine(members, "dependencies");
      var d := Get(members, "dependencies");
      ghost var before := View();
      var ds: seq<Dependency> := [];
      for i := 0 to |Values(d)|
        invariant Valid() && Moved(before, View(), ctx, true) && root == old(root) && |ds| == i
        invariant RequirementsDenote(View(), us, members, d, ds)
      {
        ghost var v := View();
        DependencyOffered(ctx.seed, us, members, i);
        var made := MakeRequirement(members, Keys(d)[i], Values(d)[i], us, ctx);
        MovedTransitive(before, v, View(), ctx, made.Ok?);
        if made.Err? { return Err(made.error); }
        RequirementsMore(v, View(), us, members, d, ds, made.value);
        ds := ds + [Dependency(Keys(d)[i], made.value)];
      }
      DependenciesNow(View(), us, members, ds);
      return Ok(ds);
    }

    method MakeRequirement(ghost members: seq<Member>, key: string, j: Json, us: seq<U.Uri>, ctx: Context)
      returns (r: Result<Requirement, CompileError>)
      requires Valid() && Known(ctx) && InUniverse(universe, us) && Considered(j)
      requires !j.Array? ==> Under(ctx.seed, Scope(us, ["dependencies", key]), j)
      requires Size(j) < Size(Object(members))
      modifies this
      ensures Valid() && Moved(old(View()), View(), ctx, r.Ok?) && root == old(root)
      ensures r.Err? ==> MakeError(r.error)
      ensures r.Ok? ==> RequirementDenotes(View(), us, members, key, j, r.value)
      decreases Places() - ctx.active, Size(Object(members)), 1
    {
      if j.Array? {
        var names := AsStrings(j);
        r := if names.Ok? then Ok(Names(names.value)) else Err(names.error);
      } else {
        BelowKnown(ctx, ["dependencies", key]);
        ghost var before := View();
        var made, _ := Make(j, ["dependencies", key], us, ctx.Below(["dependencies", key]));
        BelowMoved(before, View(), ctx, ["dependencies", key], made.Ok?);
        r := if made.Ok? then Ok(Schema(made.value)) else Err(made.error);
      }
    }

    method MakeObject(members: seq<Member>, us: seq<U.Uri>, ctx: Context) returns (r: Result<ObjectRules, CompileError>)
      requires Valid() && Known(ctx) && InUniverse(universe, us) && Considered(Object(members))
      requires Offered(ctx.seed, us, members, Objects)
      modifies this
      ensures Valid() && Moved(old(View()), View(), ctx, r.Ok?) && root == old(root)
      ensures r.Err? ==> MakeError(r.error)
      ensures r.Ok? ==> ObjectDenotes(View(), us, members, true, r.value)
      decreases Places() - ctx.active, Size(Object(members)), 4
    {
      var maxProperties, minProperties := OptSize(members, "maxProperties"), OptSize(members, "minProperties");
      var required := NamesOf(members, "required");
      if maxProperties.Err? || minProperties.Err? || required.Err? { return Err(TypeError); }
      ghost var before := View();
      var listed := MakeListed(members, us, ctx);
      if listed.Err? { return Err(listed.error); }
      var (properties, patterns) := listed.value;
      ghost var v := View();
      var others := MakeOthers(members, us, ctx);
      MovedTransitive(before, v, View(), ctx, others.Ok?);
      if others.Err? { return Err(others.error); }
      PropertiesStable(v, View(), us, members, "properties", ["properties"], properties);
      PropertiesStable(v, View(), us, members, "patternProperties", [], patterns);
      var (additional, dependencies, names) := others.value;
      return Ok(ObjectRules(maxProperties.value, minProperties.value, required.value, properties, patterns, additional,
          dependencies, names));
    }

    method MakeListed(members: seq<Member>, us: seq<U.Uri>, ctx: Context)
      returns (r: Result<(seq<Property>, seq<Property>), CompileError>)
      requires Valid() && Known(ctx) && InUniverse(universe, us) && Considered(Object(members))
      requires Offered(ctx.seed, us, members, Objects)
      modifies this
      ensures Valid() && Moved(old(View()), View(), ctx, r.Ok?) && root == old(root)
      ensures r.Err? ==> MakeError(r.error)
      ensures r.Ok? ==>
        && PropertiesDenote(View(), us, members, "properties", ["properties"], r.value.0)
        && PropertiesDenote(View(), us, members, "patternProperties", [], r.value.1)
      decreases Places() - ctx.active, Size(Object(members)), 3
    {
      ghost var before := View();
      ObjectsOffered(ctx.seed, us, members);
      var properties := MakeProperties(members, "properties", ["properties"], false, us, ctx);
      if properties.Err? { return Err(properties.error); }
      ghost var v := View();
      var patterns := MakeProperties(members, "patternProperties", [], true, us, ctx);
      MovedTransitive(before, v, View(), ctx, patterns.Ok?);
      if patterns.Err? { return Err(patterns.error); }
      PropertiesStable(v, View(), us, members, "properties", ["properties"], properties.value);
      return Ok((properties.value, patterns.value));
    }

    method MakeOthers(members: seq<Member>, us: seq<U.Uri>, ctx: Context)
      returns (r: Result<(Option<Id>, seq<Dependency>, Option<Id>), CompileError>)
      requires Valid() && Known(ctx) && InUniverse(universe, us) && Considered(Object(members))
      requires Offered(ctx.seed, us, members, Objects)
      modifies this
      ensures Valid() && Moved(old(View()), View(), ctx, r.Ok?) && root == old(root)
      ensures r.Err? ==> MakeError(r.error)
      ensures r.Ok? ==>
        && OptionDenotes(View(), us, members, "additionalProperties", r.value.0)
        && DependenciesDenote(View(), us, members, r.value.1)
        && OptionDenotes(View(), us, members, "propertyNames", r.value.2)
      decreases Places() - ctx.active, Size(Object(members)), 3
    {
      ghost var v0 := View();
      ObjectsOffered(ctx.seed, us, members);
      var additional := MakeOptional(members, "additionalProperties", us, ctx);
      if additional.Err? { return Err(additional.error); }
      ghost var v1 := View();
      var dependencies := MakeDependencies(members, us, ctx);
      MovedTransitive(v0, v1, View(), ctx, dependencies.Ok?);
      if dependencies.Err? { return Err(dependencies.error); }
      ghost var v2 := View();
      var names := MakeOptional(members, "propertyNames", us, ctx);
      MovedTransitive(v0, v2, View(), ctx, names.Ok?);
      if names.Err? { return Err(names.error); }
      MovedTransitive(v1, v2, View(), ctx, names.Ok?);
      OptionStable(v1, View(), us, members, "additionalProperties", additional.value);
      DependenciesStable(v2, View(), us, members, dependencies.value);
      return Ok((additional.value, dependencies.value, names.value));
    }

    method MakeItems(members: seq<Member>, us: seq<U.Uri>, ctx: Context) returns (r: Result<ArrayRules, CompileError>)
      requires Valid() && Known(ctx) && InUniverse(universe, us) && Considered(Object(members))
      requires Offered(ctx.seed, us, members, Arrays)
      modifies this
      ensures Valid() && Moved(old(View()), View(), ctx, r.Ok?) && root == old(root)
      ensures r.Err? ==> MakeError(r.error)
      ensures r.Ok? ==> ItemsDenote(View(), us, members, r.value)
      decreases Places() - ctx.active, Size(Object(members)), 2
    {
      var items := Opt(members, "items");
      ArraysOffered(ctx.seed, us, members);
      if items.Some? && items.value.Array? {
        EntriesFine(members, "items");
        ghost var before := View();
        var list := MakeAll(Numbered(items.value, "items"), us, ctx, Size(Object(members)));
        if list.Err? { return Err(list.error); }
        ghost var v := View();
        var additional := MakeOptional(members, "additionalItems", us, ctx);
        MovedTransitive(before, v, View(), ctx, additional.Ok?);
        if additional.Err? { return Err(additional.error); }
        EntriesStable(v, View(), us, members, Numbered(items.value, "items"), list.value);
        var rules: ArrayRules := NoArrayRules.(items := list.value, additionalItems := additional.value);
        return Ok(rules);
      } else if items.Some? && (items.value.Object? || items.value.Boolean?) {
        var one := MakeOptional(members, "items", us, ctx);
        if one.Err? { return Err(one.error); }
        var rules: ArrayRules := NoArrayRules.(itemsSchema := one.value);
        return Ok(rules);
      } else {
        r := Ok(NoArrayRules);
      }
    }

    method MakeArray(members: seq<Member>, us: seq<U.Uri>, ctx: Context) returns (r: Result<ArrayRules, CompileError>)
      requires Valid() && Known(ctx) && InUniverse(universe, us) && Considered(Object(members))
      requires Offered(ctx.seed, us, members, Arrays)
      modifies this
      ensures Valid() && Moved(old(View()), View(), ctx, r.Ok?) && root == old(root)
      ensures r.Err? ==> MakeError(r.error)
      ensures r.Ok? ==> ArrayDenotes(View(), us, members, true, r.value)
      decreases Places() - ctx.active, Size(Object(members)), 3
    {
      var maxItems, minItems := OptSize(members, "maxItems"), OptSize(members, "minItems");
      if maxItems.Err? || minItems.Err? { return Err(TypeError); }
      var unique := Opt(members, "uniqueItems");
      if unique.Some? && !unique.value.Boolean? { return Err(TypeError); }
      ghost var before := View();
      var items := MakeItems(members, us, ctx);
      if items.Err? { return Err(items.error); }
      ghost var v := View();
      OneOfOffered(ctx.seed, us, members, Arrays, "contains");
      var contains := MakeOptional(members, "contains", us, ctx);
      MovedTransitive(before, v, View(), ctx, contains.Ok?);
      if contains.Err? { return Err(contains.error); }
      ArrayNow(v, View(), us, members, items.value, maxItems.value, minItems.value, contains.value);
      return Ok(items.value.(maxItems := maxItems.value, minItems := minItems.value,
                             uniqueItems := unique == Some(Boolean(true)), contains := contains.value));
    }

    /** The validator of one type, built from the members that are left. */
    method MakeKind(members: seq<Member>, name: string, table: TypeTable, us: seq<U.Uri>, ctx: Context)
      returns (r: Result<TypeTable, CompileError>)
      requires Valid() && Known(ctx) && InUniverse(universe, us) && Considered(Object(members))
      requires name == "object" ==> Offered(ctx.seed, us, members, Objects)
      requires name == "array" ==> Offered(ctx.seed, us, members, Arrays)
      modifies this
      ensures Valid() && Moved(old(View()), View(), ctx, r.Ok?) && root == old(root)
      ensures r.Err? ==> MakeError(r.error)
      ensures r.Ok? ==> KindBuilt(View(), us, members, [], name, table, r.value)
      ensures name == "integer" || name == "number" ==> (r.Ok? <==> BoundsOf(members, name == "integer").Ok?)
      ensures name == "string" ==> (r.Ok? <==> StringFine(members))
      ensures name !in {"integer", "number", "string", "object", "array"} ==> r.Ok?
      decreases Places() - ctx.active, Size(Object(members)), 5
    {
      r := Ok(table);
      match name {
        case "null" => r := Ok(table.(nullType := true));
        case "boolean" => r := Ok(table.(booleanType := true));
        case "integer" =>
          var bounds := BoundsOf(members, true);
          r := if bounds.Ok? then Ok(table.(integerType := Some(bounds.value))) else Err(bounds.error);
        case "number" =>
          var bounds := BoundsOf(members, false);
          r := if bounds.Ok? then Ok(table.(floatType := Some(bounds.value))) else Err(bounds.error);
        case "string" =>
          var rules := MakeString(members);
          r := if rules.Ok? then Ok(table.(stringType := Some(rules.value))) else Err(rules.error);
        case "object" =>
          var rules := MakeObject(members, us, ctx);
          r := if rules.Ok? then Ok(table.(objectType := Some(rules.value))) else Err(rules.error);
        case "array" =>
          var rules := MakeArray(members, us, ctx);
          r := if rules.Ok? then Ok(table.(arrayType := Some(rules.value))) else Err(rules.error);
        case _ =>
      }
    }

    /** The validators of the listed types; each erases the keywords it has read. */
    method MakeTable(members: seq<Member>, us: seq<U.Uri>, ctx: Context) returns (r: Result<TypeTable, CompileError>)
      requires Valid() && Known(ctx) && InUniverse(universe, us) && Considered(Object(members))
      requires "object" in TypesListed(members) ==> Offered(ctx.seed, us, members, Objects)
      requires "array" in TypesListed(members) ==> Offered(ctx.seed, us, members, Arrays)
      modifies this
      ensures Valid() && Moved(old(View()), View(), ctx, r.Ok?) && root == old(root)
      ensures r.Err? ==> MakeError(r.error)
      ensures r.Ok? ==> TableDenotes(View(), us, members, TypesListed(members), r.value)
      decreases Places() - ctx.active, Size(Object(members)), 6
    {
      ghost var before := View();
      var types := TypesListed(members);
      var table := TypeTable(false, false, None, None, None, None, None, None);
      var left := members;
      WithoutNothing(members);
      for i := 0 to |types|
        invariant Valid() && Moved(before, View(), ctx, true) && root == old(root)
        invariant left == Without(members, KindsConsumed(members, types[..i]))
        invariant PlainTableDenotes(View(), us, members, types[..i], table)
      {
        ghost var v := View();
        KindLeft(ctx.seed, us, members, KindsConsumed(members, types[..i]), types[i]);
        var built := MakeKind(left, types[i], table, us, ctx);
        MovedTransitive(before, v, View(), ctx, built.Ok?);
        if built.Err? { return Err(built.error); }
        OneMoreKind(v, View(), us, members, left, types, i, table, built.value);
        KindsStep(members, types, i);
        left := Without(left, KindConsumed(members, types[i]));
        table := built.value;
      }
      assert types[..|types|] == types;
      FallbacksDenote(View(), us, members, types, table);
      return Ok(WithFallbacks(table));
    }

    /** What the validators before have left of the members can be read for the next. */
    lemma {:induction false} KindLeft(seed: Seed, us: seq<U.Uri>, members: seq<Member>, erased: set<string>,
          name: string)
      requires Considered(Object(members))
      requires name == "object" ==> Offered(seed, us, members, Objects)
      requires name == "array" ==> Offered(seed, us, members, Arrays)
      ensures var left := Without(members, erased);
        && Considered(Object(left)) && Size(Object(left)) <= Size(Object(members))
        && (name == "object" ==> Offered(seed, us, left, Objects))
        && (name == "array" ==> Offered(seed, us, left, Arrays))
    {
      WithoutWellFormed(members, erased);
      WithoutTexts(members, erased);
      WithoutSize(members, erased);
      if name == "object" { OfferedLeft(seed, us, members, erased, Objects); }
      if name == "array" { OfferedLeft(seed, us, members, erased, Arrays); }
    }

    method MakeOneLogic(members: seq<Member>, key: string, us: seq<U.Uri>, ctx: Context)
      returns (r: Result<Logic, CompileError>)
      requires Valid() && Known(ctx) && InUniverse(universe, us) && Considered(Object(members)) && Has(members, key)
      requires key in LOGIC_KEYS && Offered(ctx.seed, us, members, Logics)
      modifies this
      ensures Valid() && Moved(old(View()), View(), ctx, r.Ok?) && root == old(root)
      ensures r.Err? ==> MakeError(r.error)
      ensures r.Ok? ==> OneLogicDenotes(View(), us, members, key, r.value)
      decreases Places() - ctx.active, Size(Object(members)), 2
    {
      EntriesFine(members, key);
      LogicOffered(ctx.seed, us, members, key);
      if key == "not" {
        BelowKnown(ctx, ["not"]);
        ghost var before := View();
        var made, _ := Make(Get(members, key), ["not"], us, ctx.Below(["not"]));
        BelowMoved(before, View(), ctx, ["not"], made.Ok?);
        r := if made.Ok? then Ok(Not(made.value)) else Err(made.error);
      } else {
        var made := MakeAll(Numbered(Get(members, key), key), us, ctx, Size(Object(members)));
        if made.Err? { return Err(made.error); }
        OneLogicNow(View(), us, members, key, made.value);
        r := Ok(Combine(CombinationOf(key), made.value));
      }
    }

    method MakeLogic(members: seq<Member>, keys: seq<string>, us: seq<U.Uri>, ctx: Context)
      returns (r: Result<seq<Logic>, CompileError>)
      requires Valid() && Known(ctx) && InUniverse(universe, us) && Considered(Object(members))
      requires Offered(ctx.seed, us, members, Logics) && forall key | key in keys :: key in LOGIC_KEYS
      modifies this
      ensures Valid() && Moved(old(View()), View(), ctx, r.Ok?) && root == old(root)
      ensures r.Err? ==> MakeError(r.error)
      ensures r.Ok? ==> LogicDenotes(View(), us, members, LogicListed(members, keys), r.value)
      decreases Places() - ctx.active, Size(Object(members)), 3
    {
      ghost var before := View();
      var logic: seq<Logic> := [];
      for i := 0 to |keys|
        invariant Valid() && Moved(before, View(), ctx, true) && root == old(root)
        invariant LogicDenotes(View(), us, members, LogicListed(members, keys[..i]), logic)
      {
        NextLogic(members, keys, i);
        if Has(members, keys[i]) {
          ghost var v := View();
          var one := MakeOneLogic(members, keys[i], us, ctx);
          MovedTransitive(before, v, View(), ctx, one.Ok?);
          if one.Err? { return Err(one.error); }
          OneMoreLogic(v, View(), us, members, LogicListed(members, keys[..i]), logic, keys[i], one.value);
          logic := logic + [one.value];
        }
      }
      assert keys[..|keys|] == keys;
      return Ok(logic);
    }

    /** `if` counts only beside `then` or `else`. */
    method MakeIf(members: seq<Member>, us: seq<U.Uri>, ctx: Context)
      returns (r: Result<(Option<Id>, Option<Id>, Option<Id>), CompileError>)
      requires Valid() && Known(ctx) && InUniverse(universe, us) && Considered(Object(members))
      requires Has(members, "if") && (Has(members, "then") || Has(members, "else")) ==>
        Offered(ctx.seed, us, members, Ifs)
      modifies this
      ensures Valid() && Moved(old(View()), View(), ctx, r.Ok?) && root == old(root)
      ensures r.Err? ==> MakeError(r.error)
      ensures r.Ok? ==> IfDenotes(View(), us, members, r.value.0, r.value.1, r.value.2)
      decreases Places() - ctx.active, Size(Object(members)), 3
    {
      if !Has(members, "if") || (!Has(members, "then") && !Has(members, "else")) { return Ok((None, None, None)); }
      ghost var v0 := View();
      OneOfOffered(ctx.seed, us, members, Ifs, "if");
      OneOfOffered(ctx.seed, us, members, Ifs, "then");
      OneOfOffered(ctx.seed, us, members, Ifs, "else");
      var i := MakeOptional(members, "if", us, ctx);
      if i.Err? { return Err(i.error); }
      ghost var v1 := View();
      var t := MakeOptional(members, "then", us, ctx);
      MovedTransitive(v0, v1, View(), ctx, t.Ok?);
      if t.Err? { return Err(t.error); }
      ghost var v2 := View();
      var e := MakeOptional(members, "else", us, ctx);
      MovedTransitive(v0, v2, View(), ctx, e.Ok?);
      if e.Err? { return Err(e.error); }
      MovedTransitive(v1, v2, View(), ctx, e.Ok?);
      OptionStable(v1, View(), us, members, "if", i.value);
      OptionStable(v2, View(), us, members, "then", t.value);
      return Ok((i.value, t.value, e.value));
    }

    // ---------------------------------------------------------------- a whole schema

    /** The constructor of `type_schema`. */
    method MakeType(members: seq<Member>, us: seq<U.Uri>, ctx: Context) returns (r: Result<Node, CompileError>)
      requires Valid() && Known(ctx) && InUniverse(universe, us) && Considered(Object(members))
      requires AllOffered(ctx.seed, us, members)
      requires !Has(members, "$ref")
      modifies this
      ensures Valid() && Moved(old(View()), View(), ctx, r.Ok?) && root == old(root)
      ensures r.Err? ==> MakeError(r.error)
      ensures r.Ok? ==> r.value.TypeSchema? && TypeDenotes(View(), us, members, r.value)
      decreases Places() - ctx.active, Size(Object(members)), 7
    {
      ghost var v0 := View();
      var table := MakeTable(members, us, ctx);
      if table.Err? { return Err(table.error); }
      ghost var v1 := View();
      var logic := MakeLogic(members, LOGIC_KEYS, us, ctx);
      MovedTransitive(v0, v1, View(), ctx, logic.Ok?);
      if logic.Err? { return Err(logic.error); }
      ghost var v2 := View();
      var ifs := MakeIf(members, us, ctx);
      MovedTransitive(v0, v2, View(), ctx, ifs.Ok?);
      if ifs.Err? { return Err(ifs.error); }
      MovedTransitive(v1, v2, View(), ctx, ifs.Ok?);
      TableStable(v1, View(), us, members, TypesListed(members), table.value);
      LogicStable(v2, View(), us, members, LogicListed(members, LOGIC_KEYS), logic.value);
      var enumeration := if Has(members, "enum") then Some(Values(Get(members, "enum"))) else None;
      return Ok(TypeSchema(Opt(members, "default").GetOr(Null), table.value, enumeration, Opt(members, "const"),
          logic.value,
                           ifs.value.0, ifs.value.1, ifs.value.2));
    }

    method MakeDefinitions(members: seq<Member>, us: seq<U.Uri>, ctx: Context) returns (r: Result<(), CompileError>)
      requires Valid() && Known(ctx) && InUniverse(universe, us) && Considered(Object(members))
      requires Offered(ctx.seed, us, members, Definitions)
      modifies this
      ensures Valid() && Moved(old(View()), View(), ctx, r.Ok?) && root == old(root)
      ensures r.Err? ==> MakeError(r.error)
      ensures r.Ok? ==> DefinitionsDenote(View(), us, members)
      decreases Places() - ctx.active, Size(Object(members)), 2
    {
      if Has(members, "definitions") {
        EntriesFine(members, "definitions");
        KeyedOffered(ctx.seed, us, members, Definitions, "definitions", ["definitions"]);
        var made := MakeAll(Keyed(Get(members, "definitions"), ["definitions"], "definitions"), us, ctx,
            Size(Object(members)));
        if made.Err? { return Err(made.error); }
        DefinitionsNow(View(), us, members, made.value);
      } else {
        NothingMoved(View(), ctx);
      }
      return Ok(());
    }

    /** The schema object itself: a reference, or a schema of its own. */
    method MakeItself(members: seq<Member>, us: seq<U.Uri>, ctx: Context) returns (r: Result<Id, CompileError>)
      requires Valid() && Known(ctx) && InUniverse(universe, us) && Considered(Object(members))
      requires AllOffered(ctx.seed, us, members)
      requires Has(members, "$ref") && RefUri(us, members).Ok? ==> AskOk(ctx, RefUri(us, members).value)
      modifies this
      ensures Valid() && Moved(old(View()), View(), ctx, r.Ok?) && root == old(root)
      ensures r.Err? ==> MakeError(r.error)
      ensures r.Ok? ==>
        && r.value < |nodes|
        && if Has(members, "$ref") then RefDenotes(View(), us, members, r.value, |sources|)
           else nodes[r.value].TypeSchema? && TypeDenotes(View(), us, members, nodes[r.value])
      decreases Places() - ctx.active, Size(Object(members)), 8
    {
      if Has(members, "$ref") {
        r := MakeReference(us, members, ctx);
      } else {
        ghost var before := View();
        var node := MakeType(members, us, ctx);
        if node.Err? { return Err(node.error); }
        ghost var v := View();
        TypeClosed(v, us, members, node.value);
        var n := AddObject(node.value);
        SameKeywordsMoved(v, View(), ctx);
        MovedTransitive(before, v, View(), ctx, node.Ok?);
        TypeStable(v, View(), us, members, node.value);
        return Ok(n);
      }
    }

    /** The `$id` leads to a location that is not considered. */
    function OutsideId(scope: seq<U.Uri>, members: seq<Member>): (e: CompileError)
      requires IdScope(scope, members).Ok? && InUniverse(universe, scope)
      requires !InUniverse(universe, IdScope(scope, members).value)
      ensures MakeError(e)
    {
      IdScopeAdds(scope, members);
      var us := IdScope(scope, members).value;
      Outside(U.Location(us[|us| - 1]))
    }

    /** The definitions of an object schema, and the schema itself. */
    method MakeBody(members: seq<Member>, us: seq<U.Uri>, ctx: Context) returns (r: Result<Id, CompileError>)
      requires Valid() && Known(ctx) && InUniverse(universe, us) && Considered(Object(members))
      requires AllOffered(ctx.seed, us, members)
      requires Has(members, "$ref") && RefUri(us, members).Ok? ==> AskOk(ctx, RefUri(us, members).value)
      modifies this
      ensures Valid() && Moved(old(View()), View(), ctx, r.Ok?) && root == old(root)
      ensures r.Err? ==> MakeError(r.error)
      ensures r.Ok? ==> DefinitionsDenote(View(), us, members)
      ensures r.Ok? ==>
        && r.value < |nodes|
        && if Has(members, "$ref") then RefDenotes(View(), us, members, r.value, |sources|)
           else nodes[r.value].TypeSchema? && TypeDenotes(View(), us, members, nodes[r.value])
      decreases Places() - ctx.active, Size(Object(members)), 9
    {
      ghost var before := View();
      var definitions := MakeDefinitions(members, us, ctx);
      if definitions.Err? { return Err(definitions.error); }
      ghost var v := View();
      r := MakeItself(members, us, ctx);
      MovedTransitive(before, v, View(), ctx, r.Ok?);
      if r.Ok? { DefinitionsStable(v, View(), us, members); }
    }

    /** An object schema behind its `$id`: its definitions, and the schema itself. */
    method MakeObjectNode(members: seq<Member>, scope: seq<U.Uri>, us: seq<U.Uri>, ctx: Context)
      returns (r: Result<Id, CompileError>)
      requires Valid() && Known(ctx) && IdScope(scope, members) == Ok(us) && InUniverse(universe, us)
      requires Considered(Object(members)) && Under(ctx.seed, scope, Object(members))
      modifies this
      ensures Valid() && Moved(old(View()), View(), ctx, r.Ok?) && root == old(root)
      ensures r.Err? ==> MakeError(r.error)
      ensures r.Ok? ==> Denotes(View(), scope, Object(members), r.value)
      decreases Places() - ctx.active, Size(Object(members)), 10
    {
      UnderOffered(ctx.seed, scope, members);
      NodeTidy(ctx, scope, members);
      r := MakeBody(members, us, ctx);
      if r.Ok? { ObjectNow(View(), scope, members, r.value); }
    }

    /** A reference asks for what is foreseen, and so is what becomes of unknown keywords. */
    lemma NodeTidy(ctx: Context, scope: seq<U.Uri>, members: seq<Member>)
      requires Known(ctx) && Under(ctx.seed, scope, Object(members)) && IdScope(scope, members).Ok?
      ensures var us := IdScope(scope, members).value;
        && (Has(members, "$ref") && RefUri(us, members).Ok? ==> AskOk(ctx, RefUri(us, members).value))
        && LeftOk(ctx, us, Leftover(Object(members)))
    {
      if plan.Some? {
        assert SchemaTidy(plan.value, scope, Object(members), BoundOf(plan.value, ctx.seed));
      }
    }

    /** The part of `schema::make` before the schema is registered. */
    method MakeNode(doc: Json, scope: seq<U.Uri>, ctx: Context) returns (r: Result<Id, CompileError>)
      requires Valid() && Known(ctx) && InUniverse(universe, scope) && Considered(doc)
      requires Under(ctx.seed, scope, doc)
      modifies this
      ensures Valid() && Moved(old(View()), View(), ctx, r.Ok?) && root == old(root)
      ensures r.Err? ==> MakeError(r.error)
      ensures r.Ok? ==> Denotes(View(), scope, doc, r.value) && (doc.Object? || doc.Boolean?)
      ensures r.Ok? ==> InUniverse(universe, FinalScope(scope, doc))
      ensures r.Ok? ==> LeftOk(ctx, FinalScope(scope, doc), Leftover(doc))
      ensures (doc.Boolean? ==> r.Ok?) && (!doc.Object? && !doc.Boolean? ==> r == Err(NotASchema))
      decreases Places() - ctx.active, Size(doc), 11
    {
      ghost var before := View();
      match doc {
        case Boolean(b) =>
          var n := AddObject(BooleanSchema(b));
          SameKeywordsMoved(before, View(), ctx);
          return Ok(n);
        case Object(members) =>
          var ids := IdScope(scope, members);
          if ids.Err? { return Err(ids.error); }
          if !InUniverse(universe, ids.value) { return Err(OutsideId(scope, members)); }
          NodeTidy(ctx, scope, members);
          r := MakeObjectNode(members, scope, ids.value, ctx);
        case _ =>
          NothingMoved(before, ctx);
          return Err(NotASchema);
      }
    }

    /** `schema::make`. */
    method Make(doc: Json, keys: seq<string>, uris: seq<U.Uri>, ctx: Context)
      returns (r: Result<Id, CompileError>, left: Json)
      requires Valid() && Known(ctx) && InUniverse(universe, uris) && Considered(doc)
      requires Under(ctx.seed, Scope(uris, keys), doc)
      modifies this
      ensures Valid() && Moved(old(View()), View(), ctx, r.Ok?) && root == old(root)
      ensures r.Err? ==> MakeError(r.error)
      ensures r.Ok? ==> Placed(View(), Scope(uris, keys), doc, r.value)
      ensures r.Ok? ==> NoneStored(old(View()), FinalScope(Scope(uris, keys), doc))
      ensures r.Ok? ==>
        MadeAs(old(View()), View(), ctx.own, r.value, Source(Scope(uris, keys), doc, ctx.seed, 0), Leftover(doc))
      ensures r.Ok? ==> Shrunk(Leftover(doc), left) && (doc.Object? || doc.Boolean?)
      decreases Places() - ctx.active, Size(doc), 31
    {
      left := Leftover(doc);
      LeftoverKeeps(doc);
      LeftoverSize(doc);
      var scope := Scope(uris, keys);
      ScopeInUniverse(universe, uris, keys);
      ghost var before, source := View(), Source(scope, doc, ctx.seed, 0);
      r := MakeNode(doc, scope, ctx);
      if r.Ok? {
        ghost var v := View();
        var done;
        done, left := Register(r.value, left, ctx, source, FinalScope(scope, doc));
        MovedTransitive(before, v, View(), ctx, done.Ok?);
        if done.Err? { return Err(done.error), left; }
        NowPlaced(before, v, View(), source, r.value);
        assert MadeAs(before, View(), ctx.own, r.value, source, Leftover(doc));
      }
    }

    // ---------------------------------------------------------------- the root schema and its files

    /** Locations are cut off before '#', and the documents fetched for those considered are JSON
        values whose references and ids are among the texts. If a plan is given they keep to it. */
    ghost predicate LoadReady() {
      && (forall l | l in universe :: '#' !in l)
      && (loader.Some? ==> forall l | l in universe :: Considered(loader.value(l)))
      && (plan.Some? ==> PlanOk(plan.value))
      && (plan.Some? && loader.Some? ==>
            forall l | l in universe && U.Parse(l).Ok? :: SeedTidy(plan.value, FetchedSeed(l)))
    }

    function FetchedSeed(location: string): Seed
      requires loader.Some? && U.Parse(location).Ok?
    {
      Seed(Fetched(location), [U.Parse(location).value], loader.value(location))
    }

    lemma FetchedKnown(location: string)
      requires LoadReady() && location in universe && loader.Some? && U.Parse(location).Ok?
      ensures var u, doc := U.Parse(location).value, loader.value(location);
        && Known(Local(FetchedSeed(location))) && Under(FetchedSeed(location), [u], doc) && Considered(doc)
        && Scope([u], []) == [u] && KeyOf(u).fragment == ""
    {
      PlainUri(location);
    }

    /** The locations that hold no schema for themselves yet. */
    ghost function Bare(): set<string>
      reads this
    {
      BareIn(View(), universe)
    }

    /** Errors of loading: those of compilation, and a missing loader. */
    ghost predicate LoadError(e: CompileError) {
      MakeError(e) || (e == NoLoader && loader.None?)
    }

    /** The document fetched for a location, compiled under it. */
    method Load(location: string) returns (r: Result<(), CompileError>)
      requires Valid() && LoadReady() && location in universe && loader.Some?
      modifies this
      ensures Valid() && Grew(old(View()), View()) && root == old(root)
      ensures r.Err? ==> MakeError(r.error)
      ensures r.Ok? ==> U.Parse(location).Ok? && LoadedAs(View(), U.Parse(location).value, loader.value(location))
      ensures r.Ok? ==> Bare() < old(Bare())
      ensures r.Ok? && U.Stable(location) ==> !Free(View(), Key(location, ""))
      ensures r.Ok? ==> Fetches(old(View()), View())
    {
      var parsed := U.Parse(location);
      if parsed.Err? { return Err(BadUri(parsed.error)); }
      var u, doc := parsed.value, loader.value(location);
      if U.Location(u) !in universe { return Err(Outside(U.Location(u))); }
      FetchedKnown(location);
      r := MakeFetched(location, u, doc);
    }

    method MakeFetched(location: string, u: U.Uri, doc: Json) returns (r: Result<(), CompileError>)
      requires Valid() && loader.Some? && U.Parse(location) == Ok(u) && doc == loader.value(location)
      requires Known(Local(FetchedSeed(location))) && Under(FetchedSeed(location), [u], doc) && Considered(doc)
      requires U.Location(u) in universe && Scope([u], []) == [u] && KeyOf(u).fragment == ""
      modifies this
      ensures Valid() && Grew(old(View()), View()) && root == old(root)
      ensures r.Err? ==> MakeError(r.error)
      ensures r.Ok? ==> LoadedAs(View(), u, doc) && Bare() < old(Bare())
      ensures r.Ok? ==> Fetches(old(View()), View())
    {
      ghost var before := View();
      var made, _ := Make(doc, [], [u], Local(FetchedSeed(location)));
      if made.Err? { return Err(made.error); }
      LoadedNow(before, View(), universe, u, doc, made.value);
      FetchesNow(before, View(), FetchedSeed(location), made.value);
      return Ok(());
    }

    /** A file that holds no schema is fetched. */
    method LoadIfEmpty(location: string) returns (r: Result<bool, CompileError>)
      requires Valid() && LoadReady() && location in files
      modifies this
      ensures Valid() && Grew(old(View()), View()) && root == old(root)
      ensures r.Err? ==> LoadError(r.error)
      ensures r.Ok? ==> r.value == (old(files)[location].schemas == map[])
      ensures r == Ok(true) ==>
        U.Parse(location).Ok? && loader.Some? && LoadedAs(View(), U.Parse(location).value, loader.value(location))
      ensures r == Ok(true) ==> Bare() < old(Bare())
      ensures r == Ok(false) ==> View() == old(View())
      ensures r.Ok? ==> Fetches(old(View()), View())
      ensures r == Err(NoLoader) <==> loader.None? && old(files)[location].schemas == map[]
      ensures r == Err(NoLoader) ==> View() == old(View())
    {
      if files[location].schemas != map[] { return Ok(false); }
      if loader.None? { return Err(NoLoader); }
      var one := Load(location);
      r := if one.Ok? then Ok(true) else Err(one.error);
    }

    /** Some file holds no schema. */
    ghost predicate SomeEmpty()
      reads this
    {
      exists l :: l in files && files[l].schemas == map[]
    }

    /** One round over the files known at its start: every empty one is fetched. */
    method LoadRound() returns (r: Result<bool, CompileError>)
      requires Valid() && LoadReady()
      modifies this
      ensures Valid() && Grew(old(View()), View()) && root == old(root)
      ensures r.Err? ==> LoadError(r.error)
      ensures r == Ok(true) ==> Bare() < old(Bare())
      ensures r == Ok(false) ==> View() == old(View()) && FullBut(files, {})
      ensures r.Ok? ==> Fetches(old(View()), View())
      ensures r == Err(NoLoader) ==> SomeEmpty()
    {
      ghost var before := View();
      var pending := files.Keys;
      var loaded := false;
      while pending != {}
        invariant Valid() && RoundSoFar(before, View(), universe, pending, loaded) && root == old(root)
      {
        var location :| location in pending;
        ghost var v := View();
        var one := LoadIfEmpty(location);
        if one.Err? {
          GrewTransitive(before, v, View());
          return Err(one.error);
        }
        NextInRound(before, v, View(), universe, pending, location, loaded, one.value);
        pending := pending - {location};
        loaded := loaded || one.value;
      }
      return Ok(loaded);
    }

    /** The load loop: rounds until one fetches nothing. */
    method LoadAll() returns (r: Result<(), CompileError>)
      requires Valid() && LoadReady()
      modifies this
      ensures Valid() && Grew(old(View()), View()) && root == old(root)
      ensures r.Err? ==> LoadError(r.error)
      ensures r.Ok? ==> FullBut(files, {}) && Fetches(old(View()), View())
      ensures r == Err(NoLoader) ==> SomeEmpty()
    {
      ghost var before := View();
      while true
        invariant Valid() && Grew(before, View()) && Fetches(before, View()) && root == old(root)
        decreases Bare()
      {
        ghost var v := View();
        var round := LoadRound();
        GrewTransitive(before, v, View());
        if round.Err? { return Err(round.error); }
        FetchesTransitive(before, v, View());
        if !round.value { return Ok(()); }
      }
    }

    /** Whether some reference has found no schema. */
    method CheckResolved() returns (r: Result<(), CompileError>)
      ensures r.Ok? <==> forall l | l in files :: files[l].unresolved == map[]
      ensures r.Err? ==>
        r.error.Undefined? && r.error.undefined in files && files[r.error.undefined].unresolved != map[]
    {
      var pending := files.Keys;
      while pending != {}
        invariant pending <= files.Keys && forall l | l in files && l !in pending :: files[l].unresolved == map[]
      {
        var location :| location in pending;
        pending := pending - {location};
        if files[location].unresolved != map[] { return Err(Undefined(location)); }
      }
      return Ok(());
    }

    /** The registry is emptied. */
    method Clear()
      requires plan.Some? ==> PlanOk(plan.value)
      modifies this
      ensures Valid() && View() == Registry([], map[], map[], map[]) && root == old(root)
    {
      nodes, files, handed, sources := [], map[], map[], map[];
    }

    /** A root document whose references and ids are among the texts, and which keeps to the plan if
        there is one. */
    ghost predicate Ready(doc: Json) {
      Considered(doc) && (plan.Some? ==> PlanOk(plan.value) && SeedTidy(plan.value, RootSeed(doc)))
    }

    /** The root schema, compiled into an empty registry. */
    method MakeRoot(doc: Json) returns (r: Result<(), CompileError>)
      requires Ready(doc)
      modifies this
      ensures Valid()
      ensures r.Ok? ==> root.Some? && LoadedAs(View(), U.Empty, doc) && Stored(View(), Key("", ""), root.value)
      ensures r.Ok? ==> Accounted(View(), doc)
      ensures r.Err? ==> MakeError(r.error)
    {
      Clear();
      if "" !in universe { return Err(Outside("")); }
      RootUri();
      RootKnown(doc);
      var made, _ := Make(doc, [], [U.Empty], Local(RootSeed(doc)));
      if made.Err? { return Err(made.error); }
      MadeAlone(View(), U.Empty, doc, made.value);
      AccountedNow(View(), doc, made.value);
      SetRoot(made.value);
      return Ok(());
    }

    lemma RootKnown(doc: Json)
      requires Ready(doc)
      ensures Known(Local(RootSeed(doc))) && Under(RootSeed(doc), [U.Empty], doc)
    {
    }

    method SetRoot(n: Id)
      requires Valid()
      modifies `root
      ensures Valid() && View() == old(View()) && root == Some(n)
    {
      root := Some(n);
    }

    /** Fetches what is missing, and fails if a reference stays open. */
    method LoadAndCheck() returns (r: Result<(), CompileError>)
      requires Valid() && LoadReady()
      modifies this
      ensures Valid() && Grew(old(View()), View()) && root == old(root)
      ensures r.Ok? ==> Settled() && Fetches(old(View()), View())
      ensures r.Err? ==> LoadError(r.error) || r.error.Undefined?
      ensures r == Err(NoLoader) ==> SomeEmpty()
      ensures r.Err? && r.error.Undefined? ==>
        r.error.undefined in files && files[r.error.undefined].unresolved != map[] && FullBut(files, {})
    {
      r := LoadAll();
      if r.Ok? { r := CheckResolved(); }
    }

    /** `set_root_schema`: compiles the root schema, then whatever it refers to. */
    method SetRootSchema(doc: Json) returns (r: Result<(), CompileError>)
      requires LoadReady() && Ready(doc)
      modifies this
      ensures Valid()
      ensures r.Ok? ==>
        Settled() && root.Some? && LoadedAs(View(), U.Empty, doc) && Stored(View(), Key("", ""), root.value)
      ensures r.Ok? ==> Accounted(View(), doc)
      ensures plan.Some? && r.Err? ==> !r.error.Entangled?
      ensures r.Err? ==> LoadError(r.error) || r.error.Undefined?
      ensures r == Err(NoLoader) ==> SomeEmpty()
      ensures r.Err? && r.error.Undefined? ==>
        r.error.undefined in files && files[r.error.undefined].unresolved != map[] && FullBut(files, {})
    {
      r := MakeRoot(doc);
      if r.Ok? { r := LoadRest(doc); }
      if r.Err? { NeverEntangled(r.error); }
    }

    lemma NeverEntangled(e: CompileError)
      requires LoadError(e) || e.Undefined?
      ensures plan.Some? ==> !e.Entangled?
    {
    }

    method LoadRest(ghost doc: Json) returns (r: Result<(), CompileError>)
      requires Valid() && LoadReady() && root.Some? && Accounted(View(), doc)
      requires LoadedAs(View(), U.Empty, doc) && Stored(View(), Key("", ""), root.value)
      modifies this
      ensures Valid() && root == old(root)
      ensures r.Ok? ==> LoadedAs(View(), U.Empty, doc) && Stored(View(), Key("", ""), root.value)
      ensures r.Ok? ==> Settled() && Accounted(View(), doc)
      ensures r.Err? ==> LoadError(r.error) || r.error.Undefined?
      ensures r == Err(NoLoader) ==> SomeEmpty()
      ensures r.Err? && r.error.Undefined? ==>
        r.error.undefined in files && files[r.error.undefined].unresolved != map[] && FullBut(files, {})
    {
      ghost var v := View();
      r := LoadAndCheck();
      if r.Ok? { RootStill(v, View(), doc, root.value); }
    }

    /** Every location ever mentioned holds a schema, and no reference is open. */
    ghost predicate Settled()
      reads this
    {
      forall l | l in files :: files[l].schemas != map[] && files[l].unresolved == map[]
    }
  }
}
