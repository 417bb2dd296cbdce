/** What the keywords with schemas inside mean, in plain terms: which instances a document admits,
    given what the schemas inside it admit; and the URIs of these. */

module ApplicatorLaws {
  import opened Wrappers
  import opened Json
  import opened SchemaGraph
  import opened Documents
  import opened Registry
  import opened Denotation
  import opened Evaluation
  import opened Meaning
  import opened DocumentMeaning
  import opened KeywordLaws
  import S = Strings
  import U = Uri

  // ---------------------------------------------------------------- URIs

  /** A schema inside is registered under the pointers of the one around it, with its own tokens
      behind; a plain name does not reach inside. */
  lemma {:induction false} ScopeInside(uris: seq<U.Uri>, keys: seq<string>)
    ensures Scope([], keys) == []
    ensures uris != [] ==>
      Scope(uris, keys) == (if uris[0].identifier != "" then [] else [uris[0].(pointer := uris[0].pointer + keys)])
        + Scope(uris[1..], keys)
  {
    if uris != [] {
      if uris[0].identifier == "" { PointerInside(uris[0], keys); }
      var rest := Pointed(uris[1..]);
      assert Pointed(uris) == (if uris[0].identifier != "" then [] else [uris[0]]) + rest;
    }
  }

  lemma {:induction false} PointerInside(u: U.Uri, keys: seq<string>)
    requires u.identifier == ""
    ensures Extended(u, keys) == u.(pointer := u.pointer + keys)
    decreases |keys|
  {
    if keys == [] {
      assert u.pointer + keys == u.pointer;
    } else {
      PointerInside(U.Append(u, keys[0]), keys[1..]);
      assert u.pointer + [keys[0]] + keys[1..] == u.pointer + keys;
    }
  }

  /** The same location and the same fragment. */
  ghost predicate AmongThem(uris: seq<U.Uri>, p: U.Uri) {
    exists i | 0 <= i < |uris| ::
      && uris[i].urn == p.urn && uris[i].scheme == p.scheme && uris[i].authority == p.authority
      && uris[i].path == p.path && U.Fragment(uris[i]) == U.Fragment(p)
  }

  /** `$id` adds what it resolves to from the last URI, unless what it is by itself is listed. */
  lemma IdLaw(uris: seq<U.Uri>, members: seq<Member>, id: string, p: U.Uri, u: U.Uri)
    requires uris != [] && Has(members, "$id") && Get(members, "$id") == String(id)
    requires U.Parse(id) == Ok(p) && U.Derive(uris[|uris| - 1], id) == Ok(u)
    ensures FinalScope(uris, Object(members)) == if AmongThem(uris, p) then uris else uris + [u]
    ensures IdScope(uris, members) == Ok(FinalScope(uris, Object(members)))
  {
    AmongThemIs(uris, p);
  }

  lemma AmongThemIs(uris: seq<U.Uri>, p: U.Uri)
    ensures AmongThem(uris, p) <==> exists i | 0 <= i < |uris| :: SameUri(uris[i], p)
  {
  }

  /** A `$ref` means what is said of the URI it resolves to from the last one. */
  lemma {:induction false} ReferenceLaw(refs: Oracle, k: Checks, uris: seq<U.Uri>, members: seq<Member>, r: string,
        u: U.Uri, j: Json)
    requires uris != [] && !Has(members, "$id") && Has(members, "$ref") && Get(members, "$ref") == String(r)
    requires U.Derive(uris[|uris| - 1], r) == Ok(u)
    ensures DocSat(refs, k, uris, Object(members), j) <==>
      refs(Key(U.Location(u), if u.identifier != "" then u.identifier else S.PointerText(u.pointer)), j)
  {
    NoId(uris, members);
  }

  // ---------------------------------------------------------------- logic

  /** Documents of logic only. */
  lemma {:induction false} LogicOnly(refs: Oracle, k: Checks, uris: seq<U.Uri>, members: seq<Member>, j: Json)
    requires Alone(members, LOGIC + {"then", "else"}) && !Has(members, "$id") && !Has(members, "$ref")
    requires !Has(members, "enum") && !Has(members, "const")
    ensures DocSat(refs, k, uris, Object(members), j) <==>
      && LogicClause(refs, k, uris, members, "not", j) && LogicClause(refs, k, uris, members, "allOf", j)
      && LogicClause(refs, k, uris, members, "anyOf", j) && LogicClause(refs, k, uris, members, "oneOf", j)
      && IfClause(refs, k, uris, members, j)
  {
    NoId(uris, members);
    KeywordsCount(refs, k, uris, uris, members, j);
    LogicNoKinds(refs, k, uris, members, j);
  }

  lemma {:induction false} LogicNoKinds(refs: Oracle, k: Checks, us: seq<U.Uri>, members: seq<Member>, j: Json)
    requires Alone(members, LOGIC + {"then", "else"})
    ensures KindSat(refs, k, us, members, j)
  {
    LogicApart();
    TypeApart();
    BranchesApart();
    OthersFree(refs, k, us, members, j);
  }

  lemma BranchesApart()
    ensures forall keys | keys in {STRING_KEYS, NUMBER_KEYS, ARRAY_KEYS, OBJECT_KEYS} ::
      "then" !in keys && "else" !in keys
  {
  }

  /** `not` admits what its schema does not. */
  lemma {:induction false} NotLaw(refs: Oracle, k: Checks, uris: seq<U.Uri>, members: seq<Member>, j: Json)
    requires Alone(members, {"not"}) && Has(members, "not")
    ensures DocSat(refs, k, uris, Object(members), j) <==>
      !DocSat(refs, k, Scope(uris, ["not"]), Get(members, "not"), j)
  {
    LogicOnly(refs, k, uris, members, j);
    assert !Has(members, "allOf") && !Has(members, "anyOf") && !Has(members, "oneOf") && !Has(members, "if");
  }

  /** The i-th schema of a list admits the instance. */
  ghost predicate Entry(refs: Oracle, k: Checks, uris: seq<U.Uri>, key: string, list: seq<Json>, i: nat, j: Json)
    requires i < |list|
  {
    DocSat(refs, k, Scope(uris, [key, Decimal(i)]), list[i], j)
  }

  ghost predicate OnlyEntry(refs: Oracle, k: Checks, uris: seq<U.Uri>, key: string, list: seq<Json>, i: nat, j: Json)
    requires i < |list|
  {
    forall h | 0 <= h < |list| :: Entry(refs, k, uris, key, list, h, j) <==> h == i
  }

  /** `allOf` asks for all of a list that is not empty, `anyOf` for one at least, `oneOf` for one
      and no other. */
  lemma {:induction false} CombinationLaw(refs: Oracle, k: Checks, uris: seq<U.Uri>, members: seq<Member>,
        key: string, list: seq<Json>, j: Json)
    requires key == "allOf" || key == "anyOf" || key == "oneOf"
    requires Alone(members, {key}) && Has(members, key) && Get(members, key) == Array(list)
    ensures DocSat(refs, k, uris, Object(members), j) <==>
      match key
      case "allOf" => list != [] && forall i | 0 <= i < |list| :: Entry(refs, k, uris, key, list, i, j)
      case "anyOf" => exists i | 0 <= i < |list| :: Entry(refs, k, uris, key, list, i, j)
      case _ => exists i | 0 <= i < |list| :: OnlyEntry(refs, k, uris, key, list, i, j)
  {
    LogicOnly(refs, k, uris, members, j);
    OneClause(refs, k, uris, members, key, j);
    EntriesAre(refs, k, uris, members, key, list, j);
    EntriesCombined(refs, k, uris, key, list, EntryHits(refs, k, uris, members, key, j), j);
  }

  lemma {:induction false} EntriesAre(refs: Oracle, k: Checks, uris: seq<U.Uri>, members: seq<Member>, key: string,
        list: seq<Json>, j: Json)
    requires Has(members, key) && Get(members, key) == Array(list)
    ensures |EntryHits(refs, k, uris, members, key, j)| == |list|
    ensures forall i | 0 <= i < |list| ::
      EntryHits(refs, k, uris, members, key, j)[i] == Entry(refs, k, uris, key, list, i, j)
  {
    assert Values(Get(members, key)) == list;
  }

  lemma EntriesCombined(refs: Oracle, k: Checks, uris: seq<U.Uri>, key: string, list: seq<Json>, hits: seq<bool>,
        j: Json)
    requires key == "allOf" || key == "anyOf" || key == "oneOf"
    requires |hits| == |list| && forall i | 0 <= i < |list| :: hits[i] == Entry(refs, k, uris, key, list, i, j)
    ensures Combined(CombinationOf(key), hits) <==>
      match key
      case "allOf" => list != [] && forall i | 0 <= i < |list| :: Entry(refs, k, uris, key, list, i, j)
      case "anyOf" => exists i | 0 <= i < |list| :: Entry(refs, k, uris, key, list, i, j)
      case _ => exists i | 0 <= i < |list| :: OnlyEntry(refs, k, uris, key, list, i, j)
  {
    HitsCombined(key, hits);
    forall i | 0 <= i < |list| ensures OnlyHit(hits, i) <==> OnlyEntry(refs, k, uris, key, list, i, j) {}
  }

  lemma {:induction false} OneClause(refs: Oracle, k: Checks, us: seq<U.Uri>, members: seq<Member>, key: string,
        j: Json)
    requires (key == "allOf" || key == "anyOf" || key == "oneOf") && Alone(members, {key}) && Has(members, key)
    ensures LogicClause(refs, k, us, members, "not", j) && IfClause(refs, k, us, members, j)
    ensures LogicClause(refs, k, us, members, "allOf", j) && LogicClause(refs, k, us, members, "anyOf", j)
      && LogicClause(refs, k, us, members, "oneOf", j)
      <==> Combined(CombinationOf(key), EntryHits(refs, k, us, members, key, j))
  {
    assert !Has(members, "not") && !Has(members, "if");
    assert forall other | other in {"allOf", "anyOf", "oneOf"} && other != key :: !Has(members, other);
  }

  lemma HitsCombined(key: string, hits: seq<bool>)
    requires key == "allOf" || key == "anyOf" || key == "oneOf"
    ensures Combined(CombinationOf(key), hits) <==>
      match key
      case "allOf" => hits != [] && forall i | 0 <= i < |hits| :: hits[i]
      case "anyOf" => exists i | 0 <= i < |hits| :: hits[i]
      case _ => exists i | 0 <= i < |hits| :: OnlyHit(hits, i)
  {
    if Combined(OneOf, hits) {
      var i :| 0 <= i < |hits| && hits[i] && forall h | 0 <= h < |hits| && h != i :: !hits[h];
      assert OnlyHit(hits, i);
    }
    forall i | 0 <= i < |hits| && OnlyHit(hits, i) ensures Combined(OneOf, hits) { assert hits[i]; }
  }

  ghost predicate OnlyHit(hits: seq<bool>, i: nat) {
    forall h | 0 <= h < |hits| :: hits[h] <==> h == i
  }

  /** `if` chooses between `then` and `else`. */
  lemma {:induction false} IfLaw(refs: Oracle, k: Checks, uris: seq<U.Uri>, members: seq<Member>, j: Json)
    requires Alone(members, {"if", "then", "else"}) && Has(members, "if")
    ensures DocSat(refs, k, uris, Object(members), j) <==>
      if DocSat(refs, k, Scope(uris, ["if"]), Get(members, "if"), j)
      then Has(members, "then") ==> DocSat(refs, k, Scope(uris, ["then"]), Get(members, "then"), j)
      else Has(members, "else") ==> DocSat(refs, k, Scope(uris, ["else"]), Get(members, "else"), j)
  {
    LogicOnly(refs, k, uris, members, j);
    NoLists(refs, k, uris, members, j);
    IfChooses(refs, k, uris, members, j);
  }

  lemma {:induction false} NoLists(refs: Oracle, k: Checks, us: seq<U.Uri>, members: seq<Member>, j: Json)
    requires Alone(members, {"if", "then", "else"})
    ensures LogicClause(refs, k, us, members, "not", j) && LogicClause(refs, k, us, members, "allOf", j)
    ensures LogicClause(refs, k, us, members, "anyOf", j) && LogicClause(refs, k, us, members, "oneOf", j)
  {
    assert !Has(members, "not") && !Has(members, "allOf") && !Has(members, "anyOf") && !Has(members, "oneOf");
  }

  lemma {:induction false} IfChooses(refs: Oracle, k: Checks, us: seq<U.Uri>, members: seq<Member>, j: Json)
    requires Has(members, "if")
    ensures IfClause(refs, k, us, members, j) <==>
      if DocSat(refs, k, Scope(us, ["if"]), Get(members, "if"), j)
      then Has(members, "then") ==> DocSat(refs, k, Scope(us, ["then"]), Get(members, "then"), j)
      else Has(members, "else") ==> DocSat(refs, k, Scope(us, ["else"]), Get(members, "else"), j)
  {
  }

  // ---------------------------------------------------------------- objects

  /** A table of schemas, or none. */
  ghost predicate Table(members: seq<Member>, key: string, table: seq<Member>) {
    if Has(members, key) then Get(members, key) == Object(table) else table == []
  }

  lemma TableKeys(members: seq<Member>, key: string, table: seq<Member>)
    requires Table(members, key, table)
    ensures |KeysUnder(members, key)| == |table|
    ensures forall i | 0 <= i < |table| :: KeysUnder(members, key)[i] == table[i].key
    ensures Has(members, key) ==> |Values(Get(members, key))| == |table|
    ensures Has(members, key) ==> forall i | 0 <= i < |table| :: Values(Get(members, key))[i] == table[i].value
  {
  }

  ghost predicate Names(table: seq<Member>, name: string) {
    exists i | 0 <= i < |table| :: table[i].key == name
  }

  ghost predicate Fits(k: Checks, patterns: seq<Member>, name: string) {
    exists i | 0 <= i < |patterns| :: k.matches(patterns[i].key, name)
  }

  /** What is asked of one member of an object: the schema listed under its name, those of all
      patterns its name matches, and without any of these the one for additional properties. */
  ghost predicate MemberMeant(refs: Oracle, k: Checks, uris: seq<U.Uri>, members: seq<Member>, table: seq<Member>,
        patterns: seq<Member>, m: Member)
  {
    && (forall i | 0 <= i < |table| && table[i].key == m.key ::
          DocSat(refs, k, Scope(uris, ["properties", m.key]), table[i].value, m.value))
    && (forall i | 0 <= i < |patterns| && k.matches(patterns[i].key, m.key) ::
          DocSat(refs, k, Scope(uris, [patterns[i].key]), patterns[i].value, m.value))
    && (Has(members, "additionalProperties") && !Names(table, m.key) && !Fits(k, patterns, m.key) ==>
          DocSat(refs, k, Scope(uris, ["additionalProperties"]), Get(members, "additionalProperties"), m.value))
  }

  /** `properties`, `patternProperties` and `additionalProperties`, in any company. */
  lemma {:induction false} PropertiesLaw(refs: Oracle, k: Checks, uris: seq<U.Uri>, members: seq<Member>,
        table: seq<Member>, patterns: seq<Member>, j: Json)
    requires Alone(members, {"properties", "patternProperties", "additionalProperties"})
    requires Table(members, "properties", table) && Table(members, "patternProperties", patterns)
    ensures DocSat(refs, k, uris, Object(members), j) <==>
      (j.Object? ==> forall h | 0 <= h < |j.members| ::
        MemberMeant(refs, k, uris, members, table, patterns, j.members[h]))
  {
    ObjectsOnly(refs, k, uris, members, j);
    if j.Object? {
      PropertiesAlone(refs, k, uris, members, j.members);
      forall h | 0 <= h < |j.members|
        ensures MemberDocSat(refs, k, uris, members, j.members[h])
          <==> MemberMeant(refs, k, uris, members, table, patterns, j.members[h])
      {
        OneMember(refs, k, uris, members, table, patterns, j.members[h]);
      }
    }
  }

  lemma {:induction false} PropertiesAlone(refs: Oracle, k: Checks, us: seq<U.Uri>, members: seq<Member>,
        instance: seq<Member>)
    requires Alone(members, {"properties", "patternProperties", "additionalProperties"})
    ensures ObjectDocSat(refs, k, us, members, instance) <==>
      forall h | 0 <= h < |instance| :: MemberDocSat(refs, k, us, members, instance[h])
  {
    assert !Has(members, "maxProperties") && !Has(members, "minProperties") && !Has(members, "required");
    assert !Has(members, "dependencies");
  }

  lemma {:induction false} OneMember(refs: Oracle, k: Checks, us: seq<U.Uri>, members: seq<Member>,
        table: seq<Member>, patterns: seq<Member>, m: Member)
    requires Table(members, "properties", table) && Table(members, "patternProperties", patterns)
    requires !Has(members, "propertyNames")
    ensures MemberDocSat(refs, k, us, members, m) <==> MemberMeant(refs, k, us, members, table, patterns, m)
  {
    TableKeys(members, "properties", table);
    TableKeys(members, "patternProperties", patterns);
    forall i | 0 <= i < |table| && table[i].key == m.key
      ensures KeyedSat(refs, k, us, members, "properties", ["properties"], i, m.value)
        <==> DocSat(refs, k, Scope(us, ["properties", m.key]), table[i].value, m.value)
    {
      assert ["properties"] + [table[i].key] == ["properties", m.key];
    }
    forall i | 0 <= i < |patterns|
      ensures KeyedSat(refs, k, us, members, "patternProperties", [], i, m.value)
        <==> DocSat(refs, k, Scope(us, [patterns[i].key]), patterns[i].value, m.value)
    {
      assert [] + [patterns[i].key] == [patterns[i].key];
    }
    assert Mentioned(k, members, m.key) <==> Names(table, m.key) || Fits(k, patterns, m.key);
  }

  /** `propertyNames` asks of every name, as a string. */
  lemma {:induction false} NamesLaw(refs: Oracle, k: Checks, uris: seq<U.Uri>, members: seq<Member>, j: Json)
    requires Alone(members, {"propertyNames"}) && Has(members, "propertyNames")
    ensures DocSat(refs, k, uris, Object(members), j) <==>
      (j.Object? ==> forall h | 0 <= h < |j.members| ::
        DocSat(refs, k, Scope(uris, ["propertyNames"]), Get(members, "propertyNames"), String(j.members[h].key)))
  {
    ObjectsOnly(refs, k, uris, members, j);
    NamesAlone(members);
    if j.Object? {
      forall h | 0 <= h < |j.members|
        ensures MemberDocSat(refs, k, uris, members, j.members[h]) <==>
          DocSat(refs, k, Scope(uris, ["propertyNames"]), Get(members, "propertyNames"), String(j.members[h].key))
      {
        OneName(refs, k, uris, members, j.members[h]);
      }
    }
  }

  lemma NamesAlone(members: seq<Member>)
    requires Alone(members, {"propertyNames"})
    ensures !Has(members, "maxProperties") && !Has(members, "minProperties") && !Has(members, "required")
    ensures !Has(members, "dependencies") && !Has(members, "properties") && !Has(members, "patternProperties")
    ensures !Has(members, "additionalProperties")
  {
  }

  lemma {:induction false} OneName(refs: Oracle, k: Checks, us: seq<U.Uri>, members: seq<Member>, m: Member)
    requires Has(members, "propertyNames") && !Has(members, "properties") && !Has(members, "patternProperties")
    requires !Has(members, "additionalProperties")
    ensures MemberDocSat(refs, k, us, members, m) <==>
      DocSat(refs, k, Scope(us, ["propertyNames"]), Get(members, "propertyNames"), String(m.key))
  {
  }

  /** What the presence of a property asks for: other properties, or a schema for the object. */
  ghost predicate Asks(refs: Oracle, k: Checks, uris: seq<U.Uri>, m: Member, j: Json) {
    match m.value
    case Array(names) =>
      (forall i | 0 <= i < |names| :: names[i].String?) ==>
        j.Object? && forall i | 0 <= i < |names| :: Has(j.members, names[i].s)
    case _ => DocSat(refs, k, Scope(uris, ["dependencies", m.key]), m.value, j)
  }

  lemma {:induction false} DependenciesLaw(refs: Oracle, k: Checks, uris: seq<U.Uri>, members: seq<Member>,
        table: seq<Member>, j: Json)
    requires Alone(members, {"dependencies"}) && Has(members, "dependencies")
    requires Get(members, "dependencies") == Object(table)
    ensures DocSat(refs, k, uris, Object(members), j) <==>
      (j.Object? ==> forall i | 0 <= i < |table| && Has(j.members, table[i].key) ::
        Asks(refs, k, uris, table[i], j))
  {
    ObjectsOnly(refs, k, uris, members, j);
    if j.Object? {
      DependenciesAlone(refs, k, uris, members, j.members);
      TableKeys(members, "dependencies", table);
      forall i | 0 <= i < |table|
        ensures DependencyDocSat(refs, k, uris, members, i, j.members) <==> Asks(refs, k, uris, table[i], j)
      {
        OneDependency(refs, k, uris, members, table, i, j.members);
      }
    }
  }

  lemma {:induction false} DependenciesAlone(refs: Oracle, k: Checks, us: seq<U.Uri>, members: seq<Member>,
        instance: seq<Member>)
    requires Alone(members, {"dependencies"})
    ensures ObjectDocSat(refs, k, us, members, instance) <==> DependenciesDocSat(refs, k, us, members, instance)
  {
    assert !Has(members, "maxProperties") && !Has(members, "minProperties") && !Has(members, "required");
    assert !Has(members, "properties") && !Has(members, "patternProperties") && !Has(members, "propertyNames");
    assert !Has(members, "additionalProperties");
  }

  lemma {:induction false} OneDependency(refs: Oracle, k: Checks, us: seq<U.Uri>, members: seq<Member>,
        table: seq<Member>, i: nat, instance: seq<Member>)
    requires Has(members, "dependencies") && Get(members, "dependencies") == Object(table) && i < |table|
    ensures |KeysUnder(members, "dependencies")| == |table|
    ensures DependencyDocSat(refs, k, us, members, i, instance) <==> Asks(refs, k, us, table[i], Object(instance))
  {
    TableKeys(members, "dependencies", table);
    if table[i].value.Array? {
      StringsOf(table[i].value.items, instance);
    } else {
      assert ["dependencies"] + [table[i].key] == ["dependencies", table[i].key];
    }
  }

  lemma StringsOf(items: seq<Json>, instance: seq<Member>)
    ensures (forall names :: AsStrings(Array(items)) == Ok(names) ==> HasAll(instance, names)) <==>
      ((forall i | 0 <= i < |items| :: items[i].String?) ==> forall i | 0 <= i < |items| :: Has(instance, items[i].s))
  {
    if forall i | 0 <= i < |items| :: items[i].String? {
      var names := AsStrings(Array(items)).value;
      assert forall i | 0 <= i < |items| :: names[i] == items[i].s;
    }
  }

  // ---------------------------------------------------------------- arrays

  /** The schema for the i-th element: the only one, or the i-th of a list, or behind the list the
      one for additional elements. */
  ghost predicate ElementMeant(refs: Oracle, k: Checks, uris: seq<U.Uri>, members: seq<Member>, i: nat, j: Json)
    requires Has(members, "items")
  {
    match Get(members, "items")
    case Array(list) =>
      if i < |list| then DocSat(refs, k, Scope(uris, ["items", Decimal(i)]), list[i], j)
      else Has(members, "additionalItems") ==>
        DocSat(refs, k, Scope(uris, ["additionalItems"]), Get(members, "additionalItems"), j)
    case Object(_) => DocSat(refs, k, Scope(uris, ["items"]), Get(members, "items"), j)
    case Boolean(_) => DocSat(refs, k, Scope(uris, ["items"]), Get(members, "items"), j)
    case _ => true
  }

  lemma {:induction false} ItemsLaw(refs: Oracle, k: Checks, uris: seq<U.Uri>, members: seq<Member>, j: Json)
    requires Alone(members, {"items", "additionalItems"}) && Has(members, "items")
    ensures DocSat(refs, k, uris, Object(members), j) <==>
      (j.Array? ==> forall i | 0 <= i < |j.items| :: ElementMeant(refs, k, uris, members, i, j.items[i]))
  {
    ArraysOnly(refs, k, uris, members, j);
    ItemsAlone(members);
    if j.Array? {
      forall i | 0 <= i < |j.items|
        ensures ItemDocSat(refs, k, uris, members, i, j.items[i])
          <==> ElementMeant(refs, k, uris, members, i, j.items[i])
      {
        OneItem(refs, k, uris, members, i, j.items[i]);
      }
    }
  }

  lemma ItemsAlone(members: seq<Member>)
    requires Alone(members, {"items", "additionalItems"})
    ensures !Has(members, "maxItems") && !Has(members, "minItems") && !Has(members, "uniqueItems")
    ensures !Has(members, "contains")
  {
  }

  lemma {:induction false} OneItem(refs: Oracle, k: Checks, us: seq<U.Uri>, members: seq<Member>, i: nat, j: Json)
    requires Has(members, "items")
    ensures ItemDocSat(refs, k, us, members, i, j) <==> ElementMeant(refs, k, us, members, i, j)
  {
  }

  /** `additionalItems` says nothing without a list of items. */
  lemma {:induction false} AdditionalLaw(refs: Oracle, k: Checks, uris: seq<U.Uri>, members: seq<Member>, j: Json)
    requires Alone(members, {"additionalItems"})
    ensures DocSat(refs, k, uris, Object(members), j)
  {
    ArraysOnly(refs, k, uris, members, j);
    ItemsAlone(members);
    assert !Has(members, "items");
  }

  /** `contains` asks for one element. */
  lemma {:induction false} ContainsLaw(refs: Oracle, k: Checks, uris: seq<U.Uri>, members: seq<Member>, j: Json)
    requires Alone(members, {"contains"}) && Has(members, "contains")
    ensures DocSat(refs, k, uris, Object(members), j) <==>
      (j.Array? ==> exists i | 0 <= i < |j.items| ::
        DocSat(refs, k, Scope(uris, ["contains"]), Get(members, "contains"), j.items[i]))
  {
    ArraysOnly(refs, k, uris, members, j);
    assert !Has(members, "maxItems") && !Has(members, "minItems") && !Has(members, "uniqueItems");
    assert !Has(members, "items");
  }
}
