/** When a node of the schema graph is the compiled form of a schema document. */

module Denotation {
  import opened Wrappers
  import opened Json
  import opened SchemaGraph
  import opened Documents
  import opened Registry
  import U = Uri

  // ---------------------------------------------------------------- keywords in effect

  const STRING_KEYS := {"maxLength", "minLength", "contentEncoding", "contentMediaType", "pattern", "format"}
  const NUMBER_KEYS := {"maximum", "minimum", "exclusiveMaximum", "exclusiveMinimum", "multipleOf"}
  const OBJECT_KEYS := {"maxProperties", "minProperties", "required", "properties", "patternProperties",
                        "additionalProperties", "dependencies", "propertyNames"}
  const ARRAY_KEYS := {"maxItems", "minItems", "uniqueItems", "items", "contains"}

  const TYPE_NAMES := ["null", "object", "array", "string", "boolean", "integer", "number"]

  /** The types a schema lists, in the order their validators are built. */
  function TypesListed(members: seq<Member>): seq<string> {
    match Opt(members, "type")
    case None => TYPE_NAMES
    case Some(String(s)) => KnownNames([String(s)])
    case Some(Array(items)) => KnownNames(items)
    case Some(_) => []
  }

  function KnownNames(items: seq<Json>): seq<string> {
    if items == [] then []
    else (if items[0].String? && items[0].s in TYPE_NAMES then [items[0].s] else []) + KnownNames(items[1..])
  }

  /** The members a type's validator sees: a type listed again finds its keywords erased. */
  function InEffect(members: seq<Member>, types: seq<string>, name: string, keys: set<string>): seq<Member> {
    if multiset(types)[name] >= 2 then Without(members, keys) else members
  }

  // ---------------------------------------------------------------- leaf validators

  /** Exclusive bounds replace inclusive ones. */
  function BoundsOf(members: seq<Member>, integral: bool): Result<Bounds, CompileError> {
    match (OptBound(members, "maximum", integral), OptBound(members, "minimum", integral),
           OptBound(members, "exclusiveMaximum", integral), OptBound(members, "exclusiveMinimum", integral),
           OptBound(members, "multipleOf", false))
    case (Ok(max), Ok(min), Ok(xmax), Ok(xmin), Ok(mult)) =>
      Ok(Bounds(if xmax.Some? then xmax else max, xmax.Some?, if xmin.Some? then xmin else min, xmin.Some?, mult))
    case _ => Err(TypeError)
  }

  /** `contentEncoding` and `contentMediaType` together; either one turns the check on. */
  function ContentOf(members: seq<Member>): Result<Option<(string, string)>, CompileError> {
    match (OptString(members, "contentEncoding"), OptString(members, "contentMediaType"))
    case (Ok(None), Ok(None)) => Ok(None)
    case (Ok(e), Ok(m)) => Ok(Some((e.GetOr(""), m.GetOr(""))))
    case _ => Err(TypeError)
  }

  ghost predicate StringDenotes(members: seq<Member>, v: StringRules) {
    && OptSize(members, "minLength") == Ok(v.minLength) && OptSize(members, "maxLength") == Ok(v.maxLength)
    && ContentOf(members) == Ok(v.content)
    && OptString(members, "pattern") == Ok(v.pattern) && OptString(members, "format") == Ok(v.format)
  }

  function NamesOf(members: seq<Member>, key: string): Result<seq<string>, CompileError> {
    match Opt(members, key)
    case None => Ok([])
    case Some(j) => AsStrings(j)
  }

  // ---------------------------------------------------------------- denotation

  /** What was handed out for a URI: the schema stored there, among the first t that were stored,
      or a reference made for the URI. */
  ghost predicate RefersTo(reg: Registry, key: Key, n: Id, t: nat) {
    || (Stored(reg, key, n) && key in reg.sources && reg.sources[key].born < t)
    || (n in reg.handed && reg.handed[n] == key)
  }

  /** A default beside `$ref` goes into a copy of the schema or a reference to the reference. */
  ghost predicate Overrides(nodes: Graph, m: Id, d: Json, n: Id)
    requires m < |nodes| && n < |nodes|
  {
    match nodes[m]
    case BooleanSchema(_) => n == m
    case TypeSchema(_, _, _, _, _, _, _, _) => nodes[n] == WithDefault(nodes[m], d)
    case Reference(_, _, _) => nodes[n].Reference? && nodes[n].target == Some(m) && nodes[n].defaultValue == d
  }

  /** A `$ref` compiled when t schemas had been stored. */
  ghost predicate RefDenotes(reg: Registry, uris: seq<U.Uri>, members: seq<Member>, n: Id, t: nat)
    requires n < |reg.nodes|
  {
    && RefUri(uris, members).Ok?
    && var key := KeyOf(RefUri(uris, members).value);
       match Opt(members, "default")
       case None => RefersTo(reg, key, n, t)
       case Some(d) => exists m: Id :: m < |reg.nodes| && RefersTo(reg, key, m, t) && Overrides(reg.nodes, m, d, n)
  }

  /** The schema is stored under every URI that its place and its `$id` give the document, and the
      registry remembers the document there. */
  ghost predicate Filed(reg: Registry, scope: seq<U.Uri>, doc: Json, n: Id) {
    forall i {:trigger FinalScope(scope, doc)[i]} | 0 <= i < |FinalScope(scope, doc)| ::
      FiledAt(reg, KeyOf(FinalScope(scope, doc)[i]), scope, doc, n)
  }

  ghost predicate FiledAt(reg: Registry, key: Key, scope: seq<U.Uri>, doc: Json, n: Id) {
    Stored(reg, key, n) && key in reg.sources && reg.sources[key].scope == scope && reg.sources[key].doc == doc
  }

  /** A document is compiled and stored: what compiling a sub-schema leads to. */
  ghost predicate Placed(reg: Registry, scope: seq<U.Uri>, doc: Json, n: Id)
    decreases Size(doc), 2
  {
    Denotes(reg, scope, doc, n) && Filed(reg, scope, doc, n)
  }

  /** A node is the compiled form of a document, and every sub-schema of the document is placed. */
  ghost predicate Denotes(reg: Registry, uris: seq<U.Uri>, doc: Json, n: Id)
    decreases Size(doc), 1
  {
    n < |reg.nodes| &&
    match doc
    case Boolean(b) => reg.nodes[n] == BooleanSchema(b)
    case Object(members) =>
      && IdScope(uris, members).Ok?
      && var us := IdScope(uris, members).value;
         && DefinitionsDenote(reg, us, members)
         && if Has(members, "$ref") then RefDenotes(reg, us, members, n, |reg.sources|)
            else reg.nodes[n].TypeSchema? && TypeDenotes(reg, us, members, reg.nodes[n])
    case _ => false
  }

  /** The schemas under `definitions` belong to no node; they are placed. */
  ghost predicate DefinitionsDenote(reg: Registry, us: seq<U.Uri>, members: seq<Member>)
    decreases Size(Object(members)), 0, 2
  {
    Has(members, "definitions") ==> exists ids: seq<Id> ::
      EntriesDenote(reg, us, members, Keyed(Get(members, "definitions"), ["definitions"], "definitions"), ids)
  }

  ghost predicate TypeDenotes(reg: Registry, us: seq<U.Uri>, members: seq<Member>, node: Node)
    requires node.TypeSchema?
    decreases Size(Object(members)), 0, 7
  {
    && TableDenotes(reg, us, members, TypesListed(members), node.table)
    && node.enumeration == (match Opt(members, "enum") case None => None case Some(j) => Some(Values(j)))
    && node.constant == Opt(members, "const") && node.defaultValue == Opt(members, "default").GetOr(Null)
    && LogicDenotes(reg, us, members, LogicListed(members, LOGIC_KEYS), node.logic)
    && IfDenotes(reg, us, members, node.ifSchema, node.thenSchema, node.elseSchema)
  }

  /** The table built for a list of types. An integer is checked as a number when only
      numbers are listed. */
  ghost predicate TableDenotes(reg: Registry, us: seq<U.Uri>, members: seq<Member>, types: seq<string>,
        table: TypeTable)
    decreases Size(Object(members)), 0, 6
  {
    && PlainTableDenotes(reg, us, members, types, PlainTable(types, table))
    && (if "integer" !in types then table.integerType == table.floatType else true)
    && table.unsignedType == table.integerType
  }

  function PlainTable(types: seq<string>, table: TypeTable): TypeTable {
    table.(integerType := if "integer" in types then table.integerType else None)
  }

  /** The table before integers fall back on the number validator. */
  ghost predicate PlainTableDenotes(reg: Registry, us: seq<U.Uri>, members: seq<Member>, types: seq<string>,
        table: TypeTable)
    decreases Size(Object(members)), 0, 5
  {
    && ScalarsDenote(members, types, table)
    && StringsDenote(members, types, table.stringType)
    && ObjectsDenote(reg, us, members, types, table.objectType)
    && ArraysDenote(reg, us, members, types, table.arrayType)
  }

  ghost predicate ScalarsDenote(members: seq<Member>, types: seq<string>, table: TypeTable) {
    && table.nullType == ("null" in types) && table.booleanType == ("boolean" in types)
    && (if "integer" in types then table.integerType.Some? && BoundsOf(members, true) == Ok(table.integerType.value)
        else table.integerType.None?)
    && (if "number" in types then table.floatType.Some? && BoundsOf(members, false) == Ok(table.floatType.value)
        else table.floatType.None?)
  }

  ghost predicate StringsDenote(members: seq<Member>, types: seq<string>, o: Option<StringRules>) {
    if "string" in types then o.Some? && StringDenotes(InEffect(members, types, "string", STRING_KEYS), o.value)
    else o.None?
  }

  /** A type listed twice gets an empty validator the second time; the first one, whose sub-schemas
      were compiled, is dropped. */
  ghost predicate ObjectsDenote(reg: Registry, us: seq<U.Uri>, members: seq<Member>, types: seq<string>,
        o: Option<ObjectRules>)
    decreases Size(Object(members)), 0, 4
  {
    if "object" in types then
      && o.Some? && ObjectDenotes(reg, us, members, multiset(types)["object"] < 2, o.value)
      && exists v :: ObjectDenotes(reg, us, members, true, v)
    else o.None?
  }

  ghost predicate ArraysDenote(reg: Registry, us: seq<U.Uri>, members: seq<Member>, types: seq<string>,
        o: Option<ArrayRules>)
    decreases Size(Object(members)), 0, 4
  {
    if "array" in types then
      && o.Some? && ArrayDenotes(reg, us, members, multiset(types)["array"] < 2, o.value)
      && exists v :: ArrayDenotes(reg, us, members, true, v)
    else o.None?
  }

  // ---- logic

  const LOGIC_KEYS := ["not", "allOf", "anyOf", "oneOf"]

  function LogicListed(members: seq<Member>, keys: seq<string>): seq<string> {
    if keys == [] then []
    else (if Has(members, keys[0]) then [keys[0]] else []) + LogicListed(members, keys[1..])
  }

  function CombinationOf(key: string): Combination {
    if key == "allOf" then AllOf else if key == "anyOf" then AnyOf else OneOf
  }

  ghost predicate LogicDenotes(reg: Registry, us: seq<U.Uri>, members: seq<Member>, keys: seq<string>,
        logic: seq<Logic>)
    decreases Size(Object(members)), 0, 3
  {
    |logic| == |keys| && forall i | 0 <= i < |keys| :: OneLogicDenotes(reg, us, members, keys[i], logic[i])
  }

  ghost predicate OneLogicDenotes(reg: Registry, us: seq<U.Uri>, members: seq<Member>, key: string, logic: Logic)
    decreases Size(Object(members)), 0, 2
  {
    Has(members, key) &&
    match logic
    case Not(s) => key == "not" && Placed(reg, Scope(us, ["not"]), Get(members, key), s)
    case Combine(c, ss) =>
      key != "not" && c == CombinationOf(key) && EntriesDenote(reg, us, members, Numbered(Get(members, key), key), ss)
  }

  ghost predicate EntriesDenote(reg: Registry, us: seq<U.Uri>, members: seq<Member>, entries: seq<Entry>, ids: seq<Id>)
    requires forall i | 0 <= i < |entries| :: Size(entries[i].doc) < Size(Object(members))
    decreases Size(Object(members)), 0, 1
  {
    |ids| == |entries| && forall i | 0 <= i < |entries| ::
      Placed(reg, Scope(us, entries[i].keys), entries[i].doc, ids[i])
  }

  ghost predicate OptionDenotes(reg: Registry, us: seq<U.Uri>, members: seq<Member>, key: string, o: Option<Id>)
    decreases Size(Object(members)), 0, 1
  {
    o.Some? == Has(members, key) && (o.Some? ==> Placed(reg, Scope(us, [key]), Get(members, key), o.value))
  }

  /** `then` and `else` count only behind `if`, and `if` only before one of them. */
  ghost predicate IfDenotes(reg: Registry, us: seq<U.Uri>, members: seq<Member>, i: Option<Id>, t: Option<Id>,
        e: Option<Id>)
    decreases Size(Object(members)), 0, 2
  {
    if Has(members, "if") && (Has(members, "then") || Has(members, "else"))
    then
      && OptionDenotes(reg, us, members, "if", i) && OptionDenotes(reg, us, members, "then", t)
      && OptionDenotes(reg, us, members, "else", e)
    else i.None? && t.None? && e.None?
  }

  // ---- objects

  const NoObjectRules := ObjectRules(None, None, [], [], [], None, [], None)

  ghost predicate ObjectDenotes(reg: Registry, us: seq<U.Uri>, members: seq<Member>, inEffect: bool, v: ObjectRules)
    decreases Size(Object(members)), 0, 2
  {
    if !inEffect then v == NoObjectRules
    else
      && OptSize(members, "maxProperties") == Ok(v.maxProperties)
      && OptSize(members, "minProperties") == Ok(v.minProperties)
      && NamesOf(members, "required") == Ok(v.required)
      && PropertiesDenote(reg, us, members, "properties", ["properties"], v.properties)
      && PropertiesDenote(reg, us, members, "patternProperties", [], v.patternProperties)
      && OptionDenotes(reg, us, members, "additionalProperties", v.additionalProperties)
      && DependenciesDenote(reg, us, members, v.dependencies)
      && OptionDenotes(reg, us, members, "propertyNames", v.propertyNames)
  }

  ghost predicate PropertiesDenote(reg: Registry, us: seq<U.Uri>, members: seq<Member>, key: string,
        prefix: seq<string>, ps: seq<Property>)
    decreases Size(Object(members)), 0, 1
  {
    match Opt(members, key)
    case None => ps == []
    case Some(j) =>
      |ps| == |Values(j)| && forall i | 0 <= i < |ps| ::
        && ps[i].name == Keys(j)[i]
        && Placed(reg, Scope(us, prefix + [Keys(j)[i]]), Values(j)[i], ps[i].schema)
  }

  ghost predicate DependenciesDenote(reg: Registry, us: seq<U.Uri>, members: seq<Member>, ds: seq<Dependency>)
    decreases Size(Object(members)), 0, 1
  {
    match Opt(members, "dependencies")
    case None => ds == []
    case Some(j) =>
      |ds| == |Values(j)| && forall i | 0 <= i < |ds| ::
        && ds[i].name == Keys(j)[i]
        && RequirementDenotes(reg, us, members, Keys(j)[i], Values(j)[i], ds[i].requirement)
  }

  ghost predicate RequirementDenotes(reg: Registry, us: seq<U.Uri>, members: seq<Member>, key: string, j: Json,
        q: Requirement)
    requires Size(j) < Size(Object(members))
    decreases Size(Object(members)), 0, 0
  {
    match q
    case Names(names) => j.Array? && AsStrings(j) == Ok(names)
    case Schema(s) => !j.Array? && Placed(reg, Scope(us, ["dependencies", key]), j, s)
  }

  // ---- arrays

  const NoArrayRules := ArrayRules(None, None, false, None, [], None, None)

  ghost predicate ArrayDenotes(reg: Registry, us: seq<U.Uri>, members: seq<Member>, inEffect: bool, v: ArrayRules)
    decreases Size(Object(members)), 0, 3
  {
    if !inEffect then v == NoArrayRules
    else
      && OptSize(members, "maxItems") == Ok(v.maxItems) && OptSize(members, "minItems") == Ok(v.minItems)
      && v.uniqueItems == (Opt(members, "uniqueItems") == Some(Boolean(true)))
      && ItemsDenote(reg, us, members, v)
      && OptionDenotes(reg, us, members, "contains", v.contains)
  }

  /** `additionalItems` counts only behind a list of item schemas. */
  ghost predicate ItemsDenote(reg: Registry, us: seq<U.Uri>, members: seq<Member>, v: ArrayRules)
    decreases Size(Object(members)), 0, 2
  {
    match Opt(members, "items")
    case Some(Array(list)) =>
      && v.itemsSchema.None?
      && EntriesDenote(reg, us, members, Numbered(Get(members, "items"), "items"), v.items)
      && OptionDenotes(reg, us, members, "additionalItems", v.additionalItems)
    case Some(Object(_)) =>
      OptionDenotes(reg, us, members, "items", v.itemsSchema) && v.items == [] && v.additionalItems.None?
    case Some(Boolean(_)) =>
      OptionDenotes(reg, us, members, "items", v.itemsSchema) && v.items == [] && v.additionalItems.None?
    case _ => v.itemsSchema.None? && v.items == [] && v.additionalItems.None?
  }

  lemma {:induction false} TableParts(reg: Registry, us: seq<U.Uri>, members: seq<Member>, types: seq<string>,
        table: TypeTable)
    requires TableDenotes(reg, us, members, types, table)
    ensures ScalarsDenote(members, types, PlainTable(types, table)) && StringsDenote(members, types, table.stringType)
    ensures if "object" in types
            then table.objectType.Some?
              && ObjectDenotes(reg, us, members, multiset(types)["object"] < 2, table.objectType.value)
            else table.objectType.None?
    ensures if "array" in types
            then table.arrayType.Some?
              && ArrayDenotes(reg, us, members, multiset(types)["array"] < 2, table.arrayType.value)
            else table.arrayType.None?
  {
    assert PlainTableDenotes(reg, us, members, types, PlainTable(types, table));
    assert ObjectsDenote(reg, us, members, types, table.objectType);
    assert ArraysDenote(reg, us, members, types, table.arrayType);
  }

  // ---------------------------------------------------------------- denotation survives growth

  lemma FiledStable(a: Registry, b: Registry, scope: seq<U.Uri>, doc: Json, n: Id)
    requires Grew(a, b) && Filed(a, scope, doc, n)
    ensures Filed(b, scope, doc, n)
  {
    forall i | 0 <= i < |FinalScope(scope, doc)|
      ensures FiledAt(b, KeyOf(FinalScope(scope, doc)[i]), scope, doc, n)
    {
      assert FiledAt(a, KeyOf(FinalScope(scope, doc)[i]), scope, doc, n);
    }
  }

  lemma {:induction false} PlacedStable(a: Registry, b: Registry, scope: seq<U.Uri>, doc: Json, n: Id)
    requires Grew(a, b) && Placed(a, scope, doc, n)
    ensures Placed(b, scope, doc, n)
    decreases Size(doc), 2
  {
    FiledStable(a, b, scope, doc, n);
    DenotesStable(a, b, scope, doc, n);
  }

  lemma {:induction false} DenotesStable(a: Registry, b: Registry, uris: seq<U.Uri>, doc: Json, n: Id)
    requires Grew(a, b) && Denotes(a, uris, doc, n)
    ensures Denotes(b, uris, doc, n)
    decreases Size(doc), 1
  {
    assert NodeKept(a.nodes[n], b.nodes[n]);
    match doc
    case Boolean(_) =>
    case Object(members) =>
      var us := IdScope(uris, members).value;
      DefinitionsStable(a, b, us, members);
      if Has(members, "$ref") {
        RefStable(a, b, us, members, n, |a.sources|, |b.sources|);
      } else {
        TypeStable(a, b, us, members, a.nodes[n]);
      }
  }

  lemma {:induction false} DefinitionsStable(a: Registry, b: Registry, us: seq<U.Uri>, members: seq<Member>)
    requires Grew(a, b) && DefinitionsDenote(a, us, members)
    ensures DefinitionsDenote(b, us, members)
    decreases Size(Object(members)), 0, 2
  {
    if Has(members, "definitions") {
      var entries := Keyed(Get(members, "definitions"), ["definitions"], "definitions");
      var ids: seq<Id> :| EntriesDenote(a, us, members, entries, ids);
      EntriesStable(a, b, us, members, entries, ids);
    }
  }

  lemma RefStable(a: Registry, b: Registry, uris: seq<U.Uri>, members: seq<Member>, n: Id, t: nat, u: nat)
    requires Grew(a, b) && n < |a.nodes| && RefDenotes(a, uris, members, n, t) && t <= u
    ensures RefDenotes(b, uris, members, n, u)
  {
    var key := KeyOf(RefUri(uris, members).value);
    if Has(members, "default") {
      var d := Get(members, "default");
      var m: Id :| m < |a.nodes| && RefersTo(a, key, m, t) && Overrides(a.nodes, m, d, n);
      assert NodeKept(a.nodes[m], b.nodes[m]) && NodeKept(a.nodes[n], b.nodes[n]);
      assert RefersTo(b, key, m, u) && Overrides(b.nodes, m, d, n);
    }
  }

  lemma {:induction false} TypeStable(a: Registry, b: Registry, us: seq<U.Uri>, members: seq<Member>, node: Node)
    requires Grew(a, b) && node.TypeSchema? && TypeDenotes(a, us, members, node)
    ensures TypeDenotes(b, us, members, node)
    decreases Size(Object(members)), 0, 7
  {
    PlainTableStable(a, b, us, members, TypesListed(members), PlainTable(TypesListed(members), node.table));
    LogicStable(a, b, us, members, LogicListed(members, LOGIC_KEYS), node.logic);
    IfStable(a, b, us, members, node.ifSchema, node.thenSchema, node.elseSchema);
  }

  lemma {:induction false} PlainTableStable(a: Registry, b: Registry, us: seq<U.Uri>, members: seq<Member>,
        types: seq<string>, table: TypeTable)
    requires Grew(a, b) && PlainTableDenotes(a, us, members, types, table)
    ensures PlainTableDenotes(b, us, members, types, table)
    decreases Size(Object(members)), 0, 5
  {
    ObjectsStable(a, b, us, members, types, table.objectType);
    ArraysStable(a, b, us, members, types, table.arrayType);
  }

  lemma {:induction false} ObjectsStable(a: Registry, b: Registry, us: seq<U.Uri>, members: seq<Member>,
        types: seq<string>, o: Option<ObjectRules>)
    requires Grew(a, b) && ObjectsDenote(a, us, members, types, o)
    ensures ObjectsDenote(b, us, members, types, o)
    decreases Size(Object(members)), 0, 4
  {
    if "object" in types {
      ObjectStable(a, b, us, members, multiset(types)["object"] < 2, o.value);
      var v :| ObjectDenotes(a, us, members, true, v);
      ObjectStable(a, b, us, members, true, v);
    }
  }

  lemma {:induction false} ArraysStable(a: Registry, b: Registry, us: seq<U.Uri>, members: seq<Member>,
        types: seq<string>, o: Option<ArrayRules>)
    requires Grew(a, b) && ArraysDenote(a, us, members, types, o)
    ensures ArraysDenote(b, us, members, types, o)
    decreases Size(Object(members)), 0, 4
  {
    if "array" in types {
      ArrayStable(a, b, us, members, multiset(types)["array"] < 2, o.value);
      var v :| ArrayDenotes(a, us, members, true, v);
      ArrayStable(a, b, us, members, true, v);
    }
  }

  lemma {:induction false} TableStable(a: Registry, b: Registry, us: seq<U.Uri>, members: seq<Member>,
        types: seq<string>,
        table: TypeTable)
    requires Grew(a, b) && TableDenotes(a, us, members, types, table)
    ensures TableDenotes(b, us, members, types, table)
  {
    PlainTableStable(a, b, us, members, types, PlainTable(types, table));
  }

  lemma {:induction false} LogicStable(a: Registry, b: Registry, us: seq<U.Uri>, members: seq<Member>,
        keys: seq<string>, logic: seq<Logic>)
    requires Grew(a, b) && LogicDenotes(a, us, members, keys, logic)
    ensures LogicDenotes(b, us, members, keys, logic)
    decreases Size(Object(members)), 0, 3
  {
    forall i | 0 <= i < |keys| ensures OneLogicDenotes(b, us, members, keys[i], logic[i]) {
      OneLogicStable(a, b, us, members, keys[i], logic[i]);
    }
  }

  lemma {:induction false} OneLogicStable(a: Registry, b: Registry, us: seq<U.Uri>, members: seq<Member>, key: string,
        logic: Logic)
    requires Grew(a, b) && OneLogicDenotes(a, us, members, key, logic)
    ensures OneLogicDenotes(b, us, members, key, logic)
    decreases Size(Object(members)), 0, 2
  {
    match logic
    case Not(s) => PlacedStable(a, b, Scope(us, ["not"]), Get(members, key), s);
    case Combine(c, ss) =>
      assert Size(Opt(members, key).value) < Size(Object(members));
      EntriesStable(a, b, us, members, Numbered(Get(members, key), key), ss);
  }

  lemma {:induction false} EntriesStable(a: Registry, b: Registry, us: seq<U.Uri>, members: seq<Member>,
        entries: seq<Entry>, ids: seq<Id>)
    requires forall i | 0 <= i < |entries| :: Size(entries[i].doc) < Size(Object(members))
    requires Grew(a, b) && EntriesDenote(a, us, members, entries, ids)
    ensures EntriesDenote(b, us, members, entries, ids)
    decreases Size(Object(members)), 0, 1
  {
    forall i | 0 <= i < |entries| ensures Placed(b, Scope(us, entries[i].keys), entries[i].doc, ids[i]) {
      PlacedStable(a, b, Scope(us, entries[i].keys), entries[i].doc, ids[i]);
    }
  }

  lemma {:induction false} OptionStable(a: Registry, b: Registry, us: seq<U.Uri>, members: seq<Member>, key: string,
        o: Option<Id>)
    requires Grew(a, b) && OptionDenotes(a, us, members, key, o)
    ensures OptionDenotes(b, us, members, key, o)
    decreases Size(Object(members)), 0, 1
  {
    if o.Some? { PlacedStable(a, b, Scope(us, [key]), Get(members, key), o.value); }
  }

  lemma {:induction false} IfStable(a: Registry, b: Registry, us: seq<U.Uri>, members: seq<Member>, i: Option<Id>,
        t: Option<Id>, e: Option<Id>)
    requires Grew(a, b) && IfDenotes(a, us, members, i, t, e)
    ensures IfDenotes(b, us, members, i, t, e)
    decreases Size(Object(members)), 0, 2
  {
    if Has(members, "if") && (Has(members, "then") || Has(members, "else")) {
      OptionStable(a, b, us, members, "if", i);
      OptionStable(a, b, us, members, "then", t);
      OptionStable(a, b, us, members, "else", e);
    }
  }

  lemma {:induction false} PropertiesStable(a: Registry, b: Registry, us: seq<U.Uri>, members: seq<Member>,
        key: string, prefix: seq<string>, ps: seq<Property>)
    requires Grew(a, b) && PropertiesDenote(a, us, members, key, prefix, ps)
    ensures PropertiesDenote(b, us, members, key, prefix, ps)
    decreases Size(Object(members)), 0, 1
  {
    if Has(members, key) {
      var j := Get(members, key);
      forall i | 0 <= i < |ps| ensures Placed(b, Scope(us, prefix + [Keys(j)[i]]), Values(j)[i], ps[i].schema) {
        PlacedStable(a, b, Scope(us, prefix + [Keys(j)[i]]), Values(j)[i], ps[i].schema);
      }
    }
  }

  lemma {:induction false} RequirementStable(a: Registry, b: Registry, us: seq<U.Uri>, members: seq<Member>,
        key: string, j: Json,
        q: Requirement)
    requires Size(j) < Size(Object(members)) && Grew(a, b) && RequirementDenotes(a, us, members, key, j, q)
    ensures RequirementDenotes(b, us, members, key, j, q)
  {
    if q.Schema? { PlacedStable(a, b, Scope(us, ["dependencies", key]), j, q.schema); }
  }

  lemma {:induction false} DependenciesStable(a: Registry, b: Registry, us: seq<U.Uri>, members: seq<Member>,
        ds: seq<Dependency>)
    requires Grew(a, b) && DependenciesDenote(a, us, members, ds)
    ensures DependenciesDenote(b, us, members, ds)
    decreases Size(Object(members)), 0, 1
  {
    if Has(members, "dependencies") {
      var j := Get(members, "dependencies");
      forall i | 0 <= i < |ds| ensures RequirementDenotes(b, us, members, Keys(j)[i], Values(j)[i], ds[i].requirement) {
        if ds[i].requirement.Schema? {
          PlacedStable(a, b, Scope(us, ["dependencies", Keys(j)[i]]), Values(j)[i], ds[i].requirement.schema);
        }
      }
    }
  }

  lemma {:induction false} ObjectStable(a: Registry, b: Registry, us: seq<U.Uri>, members: seq<Member>, inEffect: bool,
        v: ObjectRules)
    requires Grew(a, b) && ObjectDenotes(a, us, members, inEffect, v)
    ensures ObjectDenotes(b, us, members, inEffect, v)
    decreases Size(Object(members)), 0, 2
  {
    if inEffect {
      PropertiesStable(a, b, us, members, "properties", ["properties"], v.properties);
      PropertiesStable(a, b, us, members, "patternProperties", [], v.patternProperties);
      OptionStable(a, b, us, members, "additionalProperties", v.additionalProperties);
      DependenciesStable(a, b, us, members, v.dependencies);
      OptionStable(a, b, us, members, "propertyNames", v.propertyNames);
    }
  }

  lemma {:induction false} ItemsStable(a: Registry, b: Registry, us: seq<U.Uri>, members: seq<Member>, v: ArrayRules)
    requires Grew(a, b) && ItemsDenote(a, us, members, v)
    ensures ItemsDenote(b, us, members, v)
    decreases Size(Object(members)), 0, 2
  {
    match Opt(members, "items") {
      case Some(Array(_)) =>
        EntriesStable(a, b, us, members, Numbered(Get(members, "items"), "items"), v.items);
        OptionStable(a, b, us, members, "additionalItems", v.additionalItems);
      case Some(Object(_)) => OptionStable(a, b, us, members, "items", v.itemsSchema);
      case Some(Boolean(_)) => OptionStable(a, b, us, members, "items", v.itemsSchema);
      case _ =>
    }
  }

  lemma {:induction false} ArrayStable(a: Registry, b: Registry, us: seq<U.Uri>, members: seq<Member>, inEffect: bool,
        v: ArrayRules)
    requires Grew(a, b) && ArrayDenotes(a, us, members, inEffect, v)
    ensures ArrayDenotes(b, us, members, inEffect, v)
    decreases Size(Object(members)), 0, 3
  {
    if inEffect {
      ItemsStable(a, b, us, members, v);
      OptionStable(a, b, us, members, "contains", v.contains);
    }
  }
}
