/** The meaning of a schema document, keyword by keyword, and of the references in it. */

module DocumentMeaning {
  import opened Wrappers
  import opened Json
  import opened SchemaGraph
  import opened Documents
  import opened Registry
  import opened Denotation
  import opened Evaluation
  import opened Meaning
  import U = Uri

  // ---------------------------------------------------------------- the meaning of a document

  /** What is said of each URI: whether the schema there admits an instance. */
  type Oracle = (Key, Json) -> bool

  /** A `$ref` says what is said of its URI. */
  ghost predicate RefSat(refs: Oracle, uris: seq<U.Uri>, members: seq<Member>, j: Json) {
    RefUri(uris, members).Ok? && refs(KeyOf(RefUri(uris, members).value), j)
  }

  ghost predicate DocSat(refs: Oracle, k: Checks, uris: seq<U.Uri>, doc: Json, j: Json)
    decreases Size(doc), 1
  {
    match doc
    case Boolean(b) => b
    case Object(members) =>
      && IdScope(uris, members).Ok?
      && var us := IdScope(uris, members).value;
         if Has(members, "$ref") then RefSat(refs, us, members, j) else KeywordsSat(refs, k, us, members, j)
    case _ => false
  }

  ghost predicate KeywordsSat(refs: Oracle, k: Checks, us: seq<U.Uri>, members: seq<Member>, j: Json)
    decreases Size(Object(members)), 0, 7
  {
    && KindSat(refs, k, us, members, j)
    && (Has(members, "enum") ==> Listed(Values(Get(members, "enum")), j))
    && (Has(members, "const") ==> Same(Get(members, "const"), j))
    && LogicClause(refs, k, us, members, "not", j)
    && LogicClause(refs, k, us, members, "allOf", j)
    && LogicClause(refs, k, us, members, "anyOf", j)
    && LogicClause(refs, k, us, members, "oneOf", j)
    && IfClause(refs, k, us, members, j)
  }

  /** `not` forbids its schema; the others ask for all, some or exactly one of a list. */
  ghost predicate LogicClause(refs: Oracle, k: Checks, us: seq<U.Uri>, members: seq<Member>, key: string, j: Json)
    decreases Size(Object(members)), 0, 4
  {
    Has(members, key) ==>
      if key == "not" then !PartSat(refs, k, us, members, key, j)
      else Combined(CombinationOf(key), EntryHits(refs, k, us, members, key, j))
  }

  ghost predicate IfClause(refs: Oracle, k: Checks, us: seq<U.Uri>, members: seq<Member>, j: Json)
    decreases Size(Object(members)), 0, 5
  {
    Has(members, "if") && (Has(members, "then") || Has(members, "else")) ==>
      if PartSat(refs, k, us, members, "if", j) then Has(members, "then") ==> PartSat(refs, k, us, members, "then", j)
      else Has(members, "else") ==> PartSat(refs, k, us, members, "else", j)
  }

  /** The sub-schema under one keyword. */
  ghost predicate PartSat(refs: Oracle, k: Checks, us: seq<U.Uri>, members: seq<Member>, key: string, j: Json)
    requires Has(members, key)
    decreases Size(Object(members)), 0, 0
  {
    assert Size(Opt(members, key).value) < Size(Object(members));
    DocSat(refs, k, Scope(us, [key]), Get(members, key), j)
  }

  /** Which sub-schemas of a list admit the instance. */
  ghost function EntryHits(refs: Oracle, k: Checks, us: seq<U.Uri>, members: seq<Member>, key: string,
        j: Json): (hits: seq<bool>)
    requires Has(members, key)
    ensures |hits| == |Values(Get(members, key))|
    decreases Size(Object(members)), 0, 0
  {
    assert Size(Opt(members, key).value) < Size(Object(members));
    var values := Values(Get(members, key));
    seq(|values|, i requires 0 <= i < |values| => DocSat(refs, k, Scope(us, [key, Decimal(i)]), values[i], j))
  }

  // ---- kinds

  /** Integers meet the integer rules when integers are listed, else the number rules; floating
      point numbers meet the number rules only. */
  ghost predicate KindSat(refs: Oracle, k: Checks, us: seq<U.Uri>, members: seq<Member>, j: Json)
    decreases Size(Object(members)), 0, 6
  {
    TypedSat(refs, k, us, members, TypesListed(members), j)
  }

  ghost predicate TypedSat(refs: Oracle, k: Checks, us: seq<U.Uri>, members: seq<Member>, types: seq<string>, j: Json)
    decreases Size(Object(members)), 0, 5
  {
    match j
    case Null => "null" in types
    case Boolean(_) => "boolean" in types
    case Integer(x) => IntegerSat(k, members, types, x as real)
    case Unsigned(x) => IntegerSat(k, members, types, x as real)
    case Float(x) => "number" in types && NumberDocSat(k, members, false, x)
    case String(s) => "string" in types && StringDocSat(k, InEffect(members, types, "string", STRING_KEYS), s)
    case Array(items) => ArraysSat(refs, k, us, members, types, items)
    case Object(instance) => ObjectsSat(refs, k, us, members, types, instance)
  }

  /** A type listed twice has lost its keywords the second time. */
  ghost predicate ArraysSat(refs: Oracle, k: Checks, us: seq<U.Uri>, members: seq<Member>, types: seq<string>,
        items: seq<Json>)
    decreases Size(Object(members)), 0, 4
  {
    "array" in types && (multiset(types)["array"] < 2 ==> ArrayDocSat(refs, k, us, members, items))
  }

  ghost predicate ObjectsSat(refs: Oracle, k: Checks, us: seq<U.Uri>, members: seq<Member>, types: seq<string>,
        instance: seq<Member>)
    decreases Size(Object(members)), 0, 4
  {
    "object" in types && (multiset(types)["object"] < 2 ==> ObjectDocSat(refs, k, us, members, instance))
  }

  ghost predicate IntegerSat(k: Checks, members: seq<Member>, types: seq<string>, x: real) {
    if "integer" in types then NumberDocSat(k, members, true, x)
      else "number" in types && NumberDocSat(k, members, false, x)
  }

  /** An inclusive bound counts only without its exclusive counterpart; bounds of integers
      have lost their fraction. */
  ghost predicate NumberDocSat(k: Checks, members: seq<Member>, integral: bool, x: real) {
    && (forall b :: OptBound(members, "multipleOf", false) == Ok(Some(b)) && x != 0.0 ==> !k.violatesMultipleOf(x, b))
    && (forall b :: OptBound(members, "exclusiveMaximum", integral) == Ok(Some(b)) ==> x < b)
    && (forall b :: OptBound(members, "maximum", integral) == Ok(Some(b)) && !Has(members, "exclusiveMaximum") ==>
      x <= b)
    && (forall b :: OptBound(members, "exclusiveMinimum", integral) == Ok(Some(b)) ==> b < x)
    && (forall b :: OptBound(members, "minimum", integral) == Ok(Some(b)) && !Has(members, "exclusiveMinimum") ==>
      b <= x)
  }

  ghost predicate StringDocSat(k: Checks, members: seq<Member>, s: string) {
    && (forall n :: OptSize(members, "minLength") == Ok(Some(n)) ==> n <= CodePoints(s))
    && (forall n :: OptSize(members, "maxLength") == Ok(Some(n)) ==> CodePoints(s) <= n)
    && (forall e, m :: ContentOf(members) == Ok(Some((e, m))) ==> k.contentError(e, m, s).None?)
    && (forall r :: OptString(members, "pattern") == Ok(Some(r)) ==> k.matches(r, s))
    && (forall f :: OptString(members, "format") == Ok(Some(f)) ==> k.formatError(f, s).None?)
  }

  // ---- objects

  ghost predicate ObjectDocSat(refs: Oracle, k: Checks, us: seq<U.Uri>, members: seq<Member>, instance: seq<Member>)
    decreases Size(Object(members)), 0, 3
  {
    && (forall n :: OptSize(members, "maxProperties") == Ok(Some(n)) ==> |instance| <= n)
    && (forall n :: OptSize(members, "minProperties") == Ok(Some(n)) ==> n <= |instance|)
    && (forall names :: NamesOf(members, "required") == Ok(names) ==> HasAll(instance, names))
    && (forall i | 0 <= i < |instance| :: MemberDocSat(refs, k, us, members, instance[i]))
    && DependenciesDocSat(refs, k, us, members, instance)
  }

  ghost predicate MemberDocSat(refs: Oracle, k: Checks, us: seq<U.Uri>, members: seq<Member>, m: Member)
    decreases Size(Object(members)), 0, 2
  {
    && (Has(members, "propertyNames") ==> PartSat(refs, k, us, members, "propertyNames", String(m.key)))
    && (forall i | 0 <= i < |KeysUnder(members, "properties")| && KeysUnder(members, "properties")[i] == m.key ::
          KeyedSat(refs, k, us, members, "properties", ["properties"], i, m.value))
    && (forall i | 0 <= i < |KeysUnder(members, "patternProperties")|
      && k.matches(KeysUnder(members, "patternProperties")[i], m.key) ::
          KeyedSat(refs, k, us, members, "patternProperties", [], i, m.value))
    && (Has(members, "additionalProperties") && !Mentioned(k, members, m.key) ==>
          PartSat(refs, k, us, members, "additionalProperties", m.value))
  }

  function KeysUnder(members: seq<Member>, key: string): seq<string> {
    if Has(members, key) then Keys(Get(members, key)) else []
  }

  ghost predicate Mentioned(k: Checks, members: seq<Member>, name: string) {
    || (exists i | 0 <= i < |KeysUnder(members, "properties")| :: KeysUnder(members, "properties")[i] == name)
    || (exists i | 0 <= i < |KeysUnder(members, "patternProperties")| ::
      k.matches(KeysUnder(members, "patternProperties")[i], name))
  }

  /** The i-th sub-schema under a keyword that lists schemas by key. */
  ghost predicate KeyedSat(refs: Oracle, k: Checks, us: seq<U.Uri>, members: seq<Member>, key: string,
        prefix: seq<string>, i: nat, j: Json)
    requires i < |KeysUnder(members, key)|
    decreases Size(Object(members)), 0, 0
  {
    assert Size(Opt(members, key).value) < Size(Object(members));
    var d := Get(members, key);
    DocSat(refs, k, Scope(us, prefix + [Keys(d)[i]]), Values(d)[i], j)
  }

  ghost predicate DependenciesDocSat(refs: Oracle, k: Checks, us: seq<U.Uri>, members: seq<Member>,
        instance: seq<Member>)
    decreases Size(Object(members)), 0, 2
  {
    forall i | 0 <= i < |KeysUnder(members, "dependencies")| && Has(instance, KeysUnder(members, "dependencies")[i]) ::
      DependencyDocSat(refs, k, us, members, i, instance)
  }

  /** A list of names the object must have, or a schema it must meet. */
  ghost predicate DependencyDocSat(refs: Oracle, k: Checks, us: seq<U.Uri>, members: seq<Member>, i: nat,
        instance: seq<Member>)
    requires i < |KeysUnder(members, "dependencies")|
    decreases Size(Object(members)), 0, 1
  {
    var d := Get(members, "dependencies");
    if Values(d)[i].Array? then forall names :: AsStrings(Values(d)[i]) == Ok(names) ==> HasAll(instance, names)
    else KeyedSat(refs, k, us, members, "dependencies", ["dependencies"], i, Object(instance))
  }

  // ---- arrays

  ghost predicate ArrayDocSat(refs: Oracle, k: Checks, us: seq<U.Uri>, members: seq<Member>, items: seq<Json>)
    decreases Size(Object(members)), 0, 3
  {
    && (forall n :: OptSize(members, "maxItems") == Ok(Some(n)) ==> |items| <= n)
    && (forall n :: OptSize(members, "minItems") == Ok(Some(n)) ==> n <= |items|)
    && (Opt(members, "uniqueItems") == Some(Boolean(true)) ==> Distinct(items, 0))
    && (forall i | 0 <= i < |items| :: ItemDocSat(refs, k, us, members, i, items[i]))
    && (Has(members, "contains") ==> exists i | 0 <= i < |items| :: PartSat(refs, k, us, members, "contains", items[i]))
  }

  ghost predicate ItemDocSat(refs: Oracle, k: Checks, us: seq<U.Uri>, members: seq<Member>, i: nat, j: Json)
    decreases Size(Object(members)), 0, 1
  {
    match Opt(members, "items")
    case Some(Array(list)) =>
      if i < |list| then EntrySat(refs, k, us, members, "items", i, j)
      else Has(members, "additionalItems") ==> PartSat(refs, k, us, members, "additionalItems", j)
    case Some(Object(_)) => PartSat(refs, k, us, members, "items", j)
    case Some(Boolean(_)) => PartSat(refs, k, us, members, "items", j)
    case _ => true
  }

  ghost predicate EntrySat(refs: Oracle, k: Checks, us: seq<U.Uri>, members: seq<Member>, key: string, i: nat, j: Json)
    requires Has(members, key) && i < |Values(Get(members, key))|
    decreases Size(Object(members)), 0, 0
  {
    assert Size(Opt(members, key).value) < Size(Object(members));
    DocSat(refs, k, Scope(us, [key, Decimal(i)]), Values(Get(members, key))[i], j)
  }

  // ---------------------------------------------------------------- what a library says

  /** Of every URI in a library is said what the document there says, references included. */
  ghost predicate Interprets(library: map<Key, Source>, k: Checks, refs: Oracle) {
    forall key, j {:trigger refs(key, j)} | key in library ::
      refs(key, j) <==> DocSat(refs, k, library[key].scope, library[key].doc, j)
  }

  /** The document admits the instance when its references mean the documents of the library. */
  ghost predicate Admits(library: map<Key, Source>, k: Checks, uris: seq<U.Uri>, doc: Json, j: Json) {
    forall refs: Oracle | Interprets(library, k, refs) :: DocSat(refs, k, uris, doc, j)
  }
}
