/** What single keywords of a schema document mean, in plain terms: which instances a document with
    one keyword admits, for every keyword and every value of it. */

module KeywordLaws {
  import opened Wrappers
  import opened Json
  import opened SchemaGraph
  import opened Documents
  import opened Registry
  import opened Denotation
  import opened Evaluation
  import opened Meaning
  import opened DocumentMeaning
  import U = Uri

  /** The document has no keywords but these. */
  ghost predicate Alone(members: seq<Member>, keys: set<string>) {
    forall key | Has(members, key) :: key in keys
  }

  ghost predicate Free(members: seq<Member>, keys: set<string>) {
    forall key | key in keys :: !Has(members, key)
  }

  lemma AloneFree(members: seq<Member>, keys: set<string>, others: set<string>)
    requires Alone(members, keys) && keys !! others
    ensures Free(members, others)
  {
  }

  // ---------------------------------------------------------------- numbers and sizes

  /** The integer nearest to r between 0 and r. */
  ghost predicate Cut(r: real, c: int) {
    if r >= 0.0 then 0 <= c && c as real <= r < c as real + 1.0 else c <= 0 && c as real - 1.0 < r <= c as real
  }

  /** The number that a bound stands for: itself; for integers without its fraction. */
  ghost predicate Stands(j: Json, integral: bool, b: real) {
    match j
    case Unsigned(n) => b == n as real
    case Integer(n) => b == n as real
    case Float(r) => if integral then exists c: int :: Cut(r, c) && b == c as real else b == r
    case _ => false
  }

  /** The size that a number stands for: itself, without its fraction, wrapped into 64 bits. */
  ghost predicate Counts(j: Json, n: nat) {
    match j
    case Unsigned(u) => n == u
    case Integer(i) => Wraps(i, n)
    case Float(r) => exists c: int :: Cut(r, c) && Wraps(c, n)
    case _ => false
  }

  ghost predicate Wraps(i: int, n: nat) {
    n < 0x1_0000_0000_0000_0000 && exists q: int :: Turns(i, q) == n
  }

  function Turns(i: int, q: int): int { i + q * 0x1_0000_0000_0000_0000 }

  lemma CutIs(r: real)
    ensures Cut(r, Truncated(r)) && forall c: int :: Cut(r, c) ==> c == Truncated(r)
  {
    var t := Truncated(r);
    forall c: int | Cut(r, c) ensures c == t {
      assert -1 < c - t < 1;
    }
  }

  lemma StandsExactly(j: Json, integral: bool, b: real)
    ensures AsBound(j, integral) == Ok(b) <==> Stands(j, integral, b)
  {
    if j.Float? { CutIs(j.r); }
  }

  lemma WrapsIs(i: int, n: nat)
    ensures Wraps(i, n) <==> n == i % SIZE_LIMIT
  {
    if n == i % SIZE_LIMIT { assert Turns(i, -(i / SIZE_LIMIT)) == n; }
    if Wraps(i, n) {
      var q: int :| Turns(i, q) == n;
      Remainder(i, q, n);
    }
  }

  lemma Remainder(i: int, q: int, n: nat)
    requires n < SIZE_LIMIT && i + q * SIZE_LIMIT == n
    ensures i % SIZE_LIMIT == n
  {
    var d, r := i / SIZE_LIMIT, i % SIZE_LIMIT;
    assert i == d * SIZE_LIMIT + r;
    assert (d + q) * SIZE_LIMIT == n - r;
    assert d + q == 0 || (d + q) * SIZE_LIMIT >= SIZE_LIMIT || (d + q) * SIZE_LIMIT <= -SIZE_LIMIT;
  }

  lemma CountsExactly(j: Json, n: nat)
    ensures AsSize(j) == Ok(n) <==> Counts(j, n)
  {
    match j
    case Integer(i) => WrapsIs(i, n);
    case Float(r) =>
      CutIs(r);
      WrapsIs(Truncated(r), n);
    case _ =>
  }

  // ---------------------------------------------------------------- documents without other clauses

  const LOGIC := {"$id", "$ref", "definitions", "enum", "const", "not", "allOf", "anyOf", "oneOf", "if"}

  /** Of a document without references, values and logic only the kinds count. */
  lemma {:induction false} KindsCount(refs: Oracle, k: Checks, uris: seq<U.Uri>, members: seq<Member>, j: Json)
    requires Free(members, LOGIC)
    ensures DocSat(refs, k, uris, Object(members), j) <==> KindSat(refs, k, uris, members, j)
  {
    NoId(uris, members);
    KeywordsCount(refs, k, uris, uris, members, j);
    NoLogic(refs, k, uris, members, j);
    assert !Has(members, "enum") && !Has(members, "const");
  }

  lemma NoId(uris: seq<U.Uri>, members: seq<Member>)
    requires !Has(members, "$id")
    ensures IdScope(uris, members) == Ok(uris)
  {
  }

  lemma {:induction false} KeywordsCount(refs: Oracle, k: Checks, uris: seq<U.Uri>, us: seq<U.Uri>,
        members: seq<Member>, j: Json)
    requires IdScope(uris, members) == Ok(us) && !Has(members, "$ref")
    ensures DocSat(refs, k, uris, Object(members), j) <==> KeywordsSat(refs, k, us, members, j)
  {
  }

  lemma {:induction false} NoLogic(refs: Oracle, k: Checks, us: seq<U.Uri>, members: seq<Member>, j: Json)
    requires !Has(members, "not") && !Has(members, "allOf") && !Has(members, "anyOf") && !Has(members, "oneOf")
    requires !Has(members, "if")
    ensures LogicClause(refs, k, us, members, "not", j) && LogicClause(refs, k, us, members, "allOf", j)
    ensures LogicClause(refs, k, us, members, "anyOf", j) && LogicClause(refs, k, us, members, "oneOf", j)
    ensures IfClause(refs, k, us, members, j)
  {
  }

  /** Without `type` every kind of instance is checked by the keywords for it. */
  lemma {:induction false} AnyKind(refs: Oracle, k: Checks, us: seq<U.Uri>, members: seq<Member>, j: Json)
    requires !Has(members, "type")
    ensures KindSat(refs, k, us, members, j) <==>
      match j
      case Integer(x) => NumberDocSat(k, members, true, x as real)
      case Unsigned(x) => NumberDocSat(k, members, true, x as real)
      case Float(x) => NumberDocSat(k, members, false, x)
      case String(s) => StringDocSat(k, members, s)
      case Array(items) => ArrayDocSat(refs, k, us, members, items)
      case Object(instance) => ObjectDocSat(refs, k, us, members, instance)
      case _ => true
  {
    AllTypes(members);
    ByType(refs, k, us, members, TypesListed(members), j);
  }

  ghost predicate EachOnce(types: seq<string>) {
    multiset(types)["string"] < 2 && multiset(types)["array"] < 2 && multiset(types)["object"] < 2
  }

  lemma AllTypes(members: seq<Member>)
    requires !Has(members, "type")
    ensures var types := TypesListed(members);
      && EachOnce(types) && "null" in types && "boolean" in types && "integer" in types && "number" in types
      && "string" in types && "array" in types && "object" in types
  {
    var types := TypesListed(members);
    assert types == ["null", "object", "array", "string", "boolean", "integer", "number"];
    assert types[0] == "null" && types[1] == "object" && types[2] == "array" && types[3] == "string";
    assert types[4] == "boolean" && types[5] == "integer" && types[6] == "number";
    DifferentNames(types);
    CountedOnce(types, "string");
    CountedOnce(types, "array");
    CountedOnce(types, "object");
  }

  lemma DifferentNames(types: seq<string>)
    requires types == ["null", "object", "array", "string", "boolean", "integer", "number"]
    ensures NoRepeats(types)
  {
    var initials := "noasbi";
    forall i | 0 <= i < 6 ensures types[i] != [] && types[i][0] == initials[i] {}
    assert types[0][2] == 'l' && types[6][2] == 'm' && types[6][0] == 'n';
  }

  lemma {:induction false} ByType(refs: Oracle, k: Checks, us: seq<U.Uri>, members: seq<Member>, types: seq<string>,
        j: Json)
    requires EachOnce(types)
    ensures TypedSat(refs, k, us, members, types, j) <==>
      match j
      case Null => "null" in types
      case Boolean(_) => "boolean" in types
      case Integer(x) => IntegerSat(k, members, types, x as real)
      case Unsigned(x) => IntegerSat(k, members, types, x as real)
      case Float(x) => "number" in types && NumberDocSat(k, members, false, x)
      case String(s) => "string" in types && StringDocSat(k, members, s)
      case Array(items) => "array" in types && ArrayDocSat(refs, k, us, members, items)
      case Object(instance) => "object" in types && ObjectDocSat(refs, k, us, members, instance)
  {
  }

  // ---- keywords that say nothing of a kind

  lemma FreeNumber(k: Checks, members: seq<Member>, integral: bool, x: real)
    requires Free(members, NUMBER_KEYS)
    ensures NumberDocSat(k, members, integral, x)
  {
    assert !Has(members, "maximum") && !Has(members, "minimum") && !Has(members, "multipleOf");
    assert !Has(members, "exclusiveMaximum") && !Has(members, "exclusiveMinimum");
  }

  lemma FreeString(k: Checks, members: seq<Member>, s: string)
    requires Free(members, STRING_KEYS)
    ensures StringDocSat(k, members, s)
  {
    assert !Has(members, "maxLength") && !Has(members, "minLength") && !Has(members, "pattern");
    assert !Has(members, "contentEncoding") && !Has(members, "contentMediaType") && !Has(members, "format");
  }

  lemma {:induction false} FreeArray(refs: Oracle, k: Checks, us: seq<U.Uri>, members: seq<Member>, items: seq<Json>)
    requires Free(members, ARRAY_KEYS)
    ensures ArrayDocSat(refs, k, us, members, items)
  {
    assert !Has(members, "maxItems") && !Has(members, "minItems") && !Has(members, "uniqueItems");
    assert !Has(members, "items") && !Has(members, "contains");
  }

  lemma {:induction false} FreeObject(refs: Oracle, k: Checks, us: seq<U.Uri>, members: seq<Member>,
        instance: seq<Member>)
    requires Free(members, OBJECT_KEYS)
    ensures ObjectDocSat(refs, k, us, members, instance)
  {
    assert !Has(members, "maxProperties") && !Has(members, "minProperties") && !Has(members, "required");
    assert !Has(members, "properties") && !Has(members, "patternProperties") && !Has(members, "propertyNames");
    assert !Has(members, "additionalProperties") && !Has(members, "dependencies");
  }

  // ---------------------------------------------------------------- bounds of numbers

  const BOUNDS := {"maximum", "exclusiveMaximum", "minimum", "exclusiveMinimum"}

  ghost predicate Compares(key: string, x: real, b: real) {
    && (key == "maximum" ==> x <= b) && (key == "exclusiveMaximum" ==> x < b)
    && (key == "minimum" ==> b <= x) && (key == "exclusiveMinimum" ==> b < x)
  }

  /** An exclusive bound replaces the inclusive one beside it. */
  ghost predicate Overridden(members: seq<Member>, key: string) {
    || (key == "maximum" && Has(members, "exclusiveMaximum"))
    || (key == "minimum" && Has(members, "exclusiveMinimum"))
  }

  ghost predicate WithinBounds(members: seq<Member>, integral: bool, x: real) {
    && Keeps(members, "maximum", integral, x) && Keeps(members, "exclusiveMaximum", integral, x)
    && Keeps(members, "minimum", integral, x) && Keeps(members, "exclusiveMinimum", integral, x)
  }

  /** The number keeps to the bound under a keyword, if there is one in effect. */
  ghost predicate Keeps(members: seq<Member>, key: string, integral: bool, x: real) {
    Has(members, key) && !Overridden(members, key) ==>
      forall b | Stands(Get(members, key), integral, b) :: Compares(key, x, b)
  }

  lemma BoundIs(members: seq<Member>, key: string, integral: bool, b: real)
    ensures OptBound(members, key, integral) == Ok(Some(b)) <==>
      Has(members, key) && Stands(Get(members, key), integral, b)
  {
    if Has(members, key) { StandsExactly(Get(members, key), integral, b); }
  }

  lemma KeepsIs(members: seq<Member>, key: string, integral: bool, x: real)
    ensures Keeps(members, key, integral, x) <==>
      forall b | OptBound(members, key, integral) == Ok(Some(b)) && !Overridden(members, key) :: Compares(key, x, b)
  {
    forall b ensures OptBound(members, key, integral) == Ok(Some(b)) <==>
      Has(members, key) && Stands(Get(members, key), integral, b) { BoundIs(members, key, integral, b); }
  }

  lemma BoundsMean(k: Checks, members: seq<Member>, integral: bool, x: real)
    requires !Has(members, "multipleOf")
    ensures NumberDocSat(k, members, integral, x) <==> WithinBounds(members, integral, x)
  {
    KeepsIs(members, "maximum", integral, x);
    KeepsIs(members, "exclusiveMaximum", integral, x);
    KeepsIs(members, "minimum", integral, x);
    KeepsIs(members, "exclusiveMinimum", integral, x);
  }

  /** A document with bounds and the type `number` or `integer` admits exactly the numbers of the
      type that keep to every bound. */
  lemma {:induction false} NumbersExactly(refs: Oracle, k: Checks, uris: seq<U.Uri>, members: seq<Member>,
        name: string, j: Json, x: real)
    requires Alone(members, {"type"} + BOUNDS) && Has(members, "type") && Get(members, "type") == String(name)
    requires (name == "number" || name == "integer") && IsNumber(j, x)
    ensures DocSat(refs, k, uris, Object(members), j) <==>
      (name == "integer" ==> !j.Float?) && WithinBounds(members, name == "integer", x)
  {
    BoundsOnly(members);
    KindsCount(refs, k, uris, members, j);
    OneType(members, name);
    KindByType(refs, k, uris, members, [name], j);
    NumberTypes(refs, k, uris, members, name, j, x);
    BoundsMean(k, members, name == "integer", x);
  }

  lemma BoundsOnly(members: seq<Member>)
    requires Alone(members, {"type"} + BOUNDS)
    ensures !Has(members, "multipleOf") && Free(members, LOGIC)
  {
  }

  lemma {:induction false} KindByType(refs: Oracle, k: Checks, us: seq<U.Uri>, members: seq<Member>, types: seq<string>,
        j: Json)
    requires TypesListed(members) == types
    ensures KindSat(refs, k, us, members, j) <==> TypedSat(refs, k, us, members, types, j)
  {
  }

  lemma {:induction false} NumberTypes(refs: Oracle, k: Checks, us: seq<U.Uri>, members: seq<Member>, name: string,
        j: Json, x: real)
    requires (name == "number" || name == "integer") && IsNumber(j, x)
    ensures TypedSat(refs, k, us, members, [name], j) <==>
      (name == "integer" ==> !j.Float?) && NumberDocSat(k, members, name == "integer", x)
  {
  }

  const KNOWN := {"null", "object", "array", "string", "boolean", "integer", "number"}

  lemma OneType(members: seq<Member>, name: string)
    requires Has(members, "type") && Get(members, "type") == String(name)
    ensures TypesListed(members) == if name in KNOWN then [name] else []
    ensures EachOnce([name]) && EachOnce([])
  {
    var items := [String(name)];
    assert items[1..] == [] && KnownNames([]) == [];
    TypeNames(name);
  }

  lemma TypeNames(name: string)
    ensures name in TYPE_NAMES <==> name in KNOWN
  {
    assert TYPE_NAMES == ["null", "object", "array", "string", "boolean", "integer", "number"];
  }

  /** In particular: one bound, given as an unsigned number, as an integer or as a float. */
  lemma {:induction false} OneBound(refs: Oracle, k: Checks, uris: seq<U.Uri>, members: seq<Member>, key: string,
        j: Json, x: real,
        b: real)
    requires Alone(members, {"type", key}) && key in BOUNDS && Has(members, key)
    requires Has(members, "type") && Get(members, "type") == String("number") && IsNumber(j, x)
    requires IsNumber(Get(members, key), b)
    ensures DocSat(refs, k, uris, Object(members), j) <==>
      match key
      case "maximum" => x <= b
      case "exclusiveMaximum" => x < b
      case "minimum" => b <= x
      case _ => b < x
  {
    NumbersExactly(refs, k, uris, members, "number", j, x);
    OnlyBound(members, key, false, x);
    StandsForItself(Get(members, key), b);
    BoundCompared(key, x, b);
  }

  lemma StandsForItself(j: Json, b: real)
    requires IsNumber(j, b)
    ensures forall c :: Stands(j, false, c) <==> c == b
  {
  }

  lemma BoundCompared(key: string, x: real, b: real)
    requires key in BOUNDS
    ensures Compares(key, x, b) <==>
      match key
      case "maximum" => x <= b
      case "exclusiveMaximum" => x < b
      case "minimum" => b <= x
      case _ => b < x
  {
  }

  lemma OnlyBound(members: seq<Member>, key: string, integral: bool, x: real)
    requires Alone(members, {"type", key}) && key in BOUNDS && Has(members, key)
    ensures WithinBounds(members, integral, x) <==>
      forall b | Stands(Get(members, key), integral, b) :: Compares(key, x, b)
  {
    assert forall other | other in BOUNDS && other != key :: !Has(members, other);
    assert !Overridden(members, key);
  }

  /** For integers, a bound loses its fraction. */
  lemma {:induction false} OneIntegerBound(refs: Oracle, k: Checks, uris: seq<U.Uri>, members: seq<Member>, key: string,
        i: int, r: real,
        c: int)
    requires Alone(members, {"type", key}) && key in BOUNDS && Has(members, key)
    requires Has(members, "type") && Get(members, "type") == String("integer")
    requires IsNumber(Get(members, key), r) && Cut(r, c)
    ensures DocSat(refs, k, uris, Object(members), Integer(i)) <==>
      match key
      case "maximum" => i <= c
      case "exclusiveMaximum" => i < c
      case "minimum" => c <= i
      case _ => c < i
  {
    NumbersExactly(refs, k, uris, members, "integer", Integer(i), i as real);
    OnlyBound(members, key, true, i as real);
    WithoutFraction(Get(members, key), r, c);
    assert Stands(Get(members, key), true, c as real);
    BoundCompared(key, i as real, c as real);
  }

  lemma WithoutFraction(j: Json, r: real, c: int)
    requires IsNumber(j, r) && Cut(r, c)
    ensures forall b :: Stands(j, true, b) <==> b == c as real
  {
    CutIs(r);
    if j.Integer? { assert Cut(r, j.i); }
    if j.Unsigned? { assert Cut(r, j.u); }
  }

  /** Zero is a multiple of everything. */
  lemma {:induction false} MultipleLaw(refs: Oracle, k: Checks, uris: seq<U.Uri>, members: seq<Member>, j: Json,
        x: real, b: real)
    requires Alone(members, {"multipleOf"}) && Has(members, "multipleOf") && IsNumber(Get(members, "multipleOf"), b)
    requires IsNumber(j, x)
    ensures DocSat(refs, k, uris, Object(members), j) <==> x == 0.0 || !k.violatesMultipleOf(x, b)
  {
    KindsCount(refs, k, uris, members, j);
    AnyKind(refs, k, uris, members, j);
    BoundIs(members, "multipleOf", false, b);
    OnlyMultiple(k, members, !j.Float?, x, b);
  }

  lemma OnlyMultiple(k: Checks, members: seq<Member>, integral: bool, x: real, b: real)
    requires OptBound(members, "multipleOf", false) == Ok(Some(b)) && Free(members, BOUNDS)
    ensures NumberDocSat(k, members, integral, x) <==> x == 0.0 || !k.violatesMultipleOf(x, b)
  {
    assert !Has(members, "maximum") && !Has(members, "minimum");
    assert !Has(members, "exclusiveMaximum") && !Has(members, "exclusiveMinimum");
  }

  // ---------------------------------------------------------------- sizes

  const SIZES := {"minLength", "maxLength", "minItems", "maxItems", "minProperties", "maxProperties"}

  ghost predicate Sized(key: string, j: Json, n: nat) {
    match j
    case String(s) => (key == "minLength" ==> n <= CodePoints(s)) && (key == "maxLength" ==> CodePoints(s) <= n)
    case Array(items) => (key == "minItems" ==> n <= |items|) && (key == "maxItems" ==> |items| <= n)
    case Object(members) => (key == "minProperties" ==> n <= |members|) && (key == "maxProperties" ==> |members| <= n)
    case _ => true
  }

  lemma SizeIs(members: seq<Member>, key: string, n: nat)
    requires Has(members, key) && Counts(Get(members, key), n)
    ensures OptSize(members, key) == Ok(Some(n))
  {
    CountsExactly(Get(members, key), n);
  }

  /** A limit on lengths, elements or members is one on its own kind of instance only. */
  lemma {:induction false} SizeLaw(refs: Oracle, k: Checks, uris: seq<U.Uri>, members: seq<Member>, key: string,
        j: Json, n: nat)
    requires Alone(members, {key}) && key in SIZES && Has(members, key) && Counts(Get(members, key), n)
    ensures DocSat(refs, k, uris, Object(members), j) <==> Sized(key, j, n)
  {
    SizeIs(members, key, n);
    if key == "minLength" || key == "maxLength" {
      StringsOnly(refs, k, uris, members, j);
      if j.String? { LengthAlone(k, members, key, j.s, n); }
    } else if key == "minItems" || key == "maxItems" {
      ArraysOnly(refs, k, uris, members, j);
      if j.Array? { ItemsAlone(refs, k, uris, members, key, j.items, n); }
    } else {
      ObjectsOnly(refs, k, uris, members, j);
      if j.Object? { PropertiesAlone(refs, k, uris, members, key, j.members, n); }
    }
  }

  lemma LengthAlone(k: Checks, members: seq<Member>, key: string, s: string, n: nat)
    requires Alone(members, {key}) && (key == "minLength" || key == "maxLength") && OptSize(members, key) == Ok(Some(n))
    ensures StringDocSat(k, members, s) <==> Sized(key, String(s), n)
  {
    assert forall other | other != key :: !Has(members, other);
    assert !Has(members, "contentEncoding") && !Has(members, "contentMediaType");
    assert !Has(members, "pattern") && !Has(members, "format");
    assert !Has(members, if key == "minLength" then "maxLength" else "minLength");
  }

  lemma {:induction false} ItemsAlone(refs: Oracle, k: Checks, us: seq<U.Uri>, members: seq<Member>, key: string,
        items: seq<Json>, n: nat)
    requires Alone(members, {key}) && (key == "minItems" || key == "maxItems") && OptSize(members, key) == Ok(Some(n))
    ensures ArrayDocSat(refs, k, us, members, items) <==> Sized(key, Array(items), n)
  {
    assert forall other | other != key :: !Has(members, other);
    assert !Has(members, "uniqueItems") && !Has(members, "items") && !Has(members, "contains");
    assert !Has(members, if key == "minItems" then "maxItems" else "minItems");
  }

  lemma {:induction false} PropertiesAlone(refs: Oracle, k: Checks, us: seq<U.Uri>, members: seq<Member>, key: string,
        instance: seq<Member>, n: nat)
    requires Alone(members, {key}) && (key == "minProperties" || key == "maxProperties")
    requires OptSize(members, key) == Ok(Some(n))
    ensures ObjectDocSat(refs, k, us, members, instance) <==> Sized(key, Object(instance), n)
  {
    assert forall other | other != key :: !Has(members, other);
    assert !Has(members, "required") && !Has(members, "properties") && !Has(members, "patternProperties");
    assert !Has(members, "propertyNames") && !Has(members, "additionalProperties") && !Has(members, "dependencies");
    assert !Has(members, if key == "minProperties" then "maxProperties" else "minProperties");
  }

  // ---------------------------------------------------------------- one kind of instance

  const ARRAYS := ARRAY_KEYS + {"additionalItems"}

  lemma KeysApart()
    ensures STRING_KEYS !! NUMBER_KEYS && STRING_KEYS !! ARRAYS && STRING_KEYS !! OBJECT_KEYS
    ensures NUMBER_KEYS !! ARRAYS && NUMBER_KEYS !! OBJECT_KEYS && ARRAYS !! OBJECT_KEYS
  {
  }

  lemma LogicApart()
    ensures LOGIC !! STRING_KEYS && LOGIC !! NUMBER_KEYS && LOGIC !! ARRAYS && LOGIC !! OBJECT_KEYS
  {
    LogicApartScalars();
    LogicApartArrays();
    LogicApartObjects();
  }

  lemma LogicApartScalars()
    ensures LOGIC !! STRING_KEYS && LOGIC !! NUMBER_KEYS
  {
  }

  lemma LogicApartArrays()
    ensures LOGIC !! ARRAYS
  {
  }

  lemma LogicApartObjects()
    ensures LOGIC !! OBJECT_KEYS
  {
  }

  lemma TypeApart()
    ensures "type" !in STRING_KEYS && "type" !in NUMBER_KEYS && "type" !in ARRAYS && "type" !in OBJECT_KEYS
    ensures "type" !in LOGIC
  {
  }

  /** Documents that speak of one kind of instance. */
  lemma OneKind(members: seq<Member>, keys: set<string>)
    requires Alone(members, keys) && keys in {STRING_KEYS, NUMBER_KEYS, ARRAYS, OBJECT_KEYS}
    ensures Free(members, LOGIC) && !Has(members, "type")
    ensures keys != STRING_KEYS ==> Free(members, STRING_KEYS)
    ensures keys != NUMBER_KEYS ==> Free(members, NUMBER_KEYS)
    ensures keys != ARRAYS ==> Free(members, ARRAYS) && Free(members, ARRAY_KEYS)
    ensures keys != OBJECT_KEYS ==> Free(members, OBJECT_KEYS)
  {
    KeysApart();
    LogicApart();
    TypeApart();
    AloneFree(members, keys, LOGIC);
  }

  /** What is asked of the other kinds is nothing. */
  lemma {:induction false} OthersFree(refs: Oracle, k: Checks, us: seq<U.Uri>, members: seq<Member>, j: Json)
    requires !Has(members, "type") && Unasked(members, j)
    ensures KindSat(refs, k, us, members, j)
  {
    AnyKind(refs, k, us, members, j);
    match j
    case Integer(x) => FreeNumber(k, members, true, x as real);
    case Unsigned(x) => FreeNumber(k, members, true, x as real);
    case Float(x) => FreeNumber(k, members, false, x);
    case String(s) => FreeString(k, members, s);
    case Array(items) => FreeArray(refs, k, us, members, items);
    case Object(instance) => FreeObject(refs, k, us, members, instance);
    case _ =>
  }

  /** Nothing is asked of an instance of this kind. */
  ghost predicate Unasked(members: seq<Member>, j: Json) {
    match j
    case Integer(_) => Free(members, NUMBER_KEYS)
    case Unsigned(_) => Free(members, NUMBER_KEYS)
    case Float(_) => Free(members, NUMBER_KEYS)
    case String(_) => Free(members, STRING_KEYS)
    case Array(_) => Free(members, ARRAY_KEYS)
    case Object(_) => Free(members, OBJECT_KEYS)
    case _ => true
  }

  lemma {:induction false} NotAsked(refs: Oracle, k: Checks, uris: seq<U.Uri>, members: seq<Member>, j: Json)
    requires Free(members, LOGIC) && !Has(members, "type") && Unasked(members, j)
    ensures DocSat(refs, k, uris, Object(members), j)
  {
    KindsCount(refs, k, uris, members, j);
    OthersFree(refs, k, uris, members, j);
  }

  lemma {:induction false} Asked(refs: Oracle, k: Checks, uris: seq<U.Uri>, members: seq<Member>, j: Json)
    requires Free(members, LOGIC) && !Has(members, "type")
    ensures j.String? ==> (DocSat(refs, k, uris, Object(members), j) <==> StringDocSat(k, members, j.s))
    ensures j.Array? ==> (DocSat(refs, k, uris, Object(members), j) <==> ArrayDocSat(refs, k, uris, members, j.items))
    ensures j.Object? ==>
      (DocSat(refs, k, uris, Object(members), j) <==> ObjectDocSat(refs, k, uris, members, j.members))
  {
    KindsCount(refs, k, uris, members, j);
    AnyKind(refs, k, uris, members, j);
  }

  /** Documents that speak of strings only. */
  lemma {:induction false} StringsOnly(refs: Oracle, k: Checks, uris: seq<U.Uri>, members: seq<Member>, j: Json)
    requires Alone(members, STRING_KEYS)
    ensures DocSat(refs, k, uris, Object(members), j) <==> (j.String? ==> StringDocSat(k, members, j.s))
  {
    OneKind(members, STRING_KEYS);
    if j.String? { Asked(refs, k, uris, members, j); } else { NotAsked(refs, k, uris, members, j); }
  }

  lemma {:induction false} ArraysOnly(refs: Oracle, k: Checks, uris: seq<U.Uri>, members: seq<Member>, j: Json)
    requires Alone(members, ARRAYS)
    ensures DocSat(refs, k, uris, Object(members), j) <==> (j.Array? ==> ArrayDocSat(refs, k, uris, members, j.items))
  {
    OneKind(members, ARRAYS);
    if j.Array? { Asked(refs, k, uris, members, j); } else { NotAsked(refs, k, uris, members, j); }
  }

  lemma {:induction false} ObjectsOnly(refs: Oracle, k: Checks, uris: seq<U.Uri>, members: seq<Member>, j: Json)
    requires Alone(members, OBJECT_KEYS)
    ensures DocSat(refs, k, uris, Object(members), j) <==>
      (j.Object? ==> ObjectDocSat(refs, k, uris, members, j.members))
  {
    OneKind(members, OBJECT_KEYS);
    if j.Object? { Asked(refs, k, uris, members, j); } else { NotAsked(refs, k, uris, members, j); }
  }

  /** Pattern, format and content are what the callbacks say of the string. */
  lemma {:induction false} TextLaw(refs: Oracle, k: Checks, uris: seq<U.Uri>, members: seq<Member>, key: string,
        text: string, j: Json)
    requires Alone(members, {key}) && Has(members, key) && Get(members, key) == String(text)
    requires key in {"pattern", "format", "contentEncoding", "contentMediaType"}
    ensures DocSat(refs, k, uris, Object(members), j) <==>
      (j.String? ==>
        match key
        case "pattern" => k.matches(text, j.s)
        case "format" => k.formatError(text, j.s).None?
        case "contentEncoding" => k.contentError(text, "", j.s).None?
        case _ => k.contentError("", text, j.s).None?)
  {
    StringsOnly(refs, k, uris, members, j);
    assert forall other | other != key :: !Has(members, other);
    if j.String? { TextAlone(k, members, key, text, j.s); }
  }

  lemma TextAlone(k: Checks, members: seq<Member>, key: string, text: string, s: string)
    requires Has(members, key) && Get(members, key) == String(text) && forall other | other != key ::
      !Has(members, other)
    requires key in {"pattern", "format", "contentEncoding", "contentMediaType"}
    ensures StringDocSat(k, members, s) <==>
      match key
      case "pattern" => k.matches(text, s)
      case "format" => k.formatError(text, s).None?
      case "contentEncoding" => k.contentError(text, "", s).None?
      case _ => k.contentError("", text, s).None?
  {
    assert OptString(members, key) == Ok(Some(text));
    assert !Has(members, "minLength") && !Has(members, "maxLength");
  }

  /** Encoding and media type are checked together. */
  lemma {:induction false} ContentLaw(refs: Oracle, k: Checks, uris: seq<U.Uri>, members: seq<Member>, encoding: string,
        media: string, j: Json)
    requires Alone(members, {"contentEncoding", "contentMediaType"})
    requires Has(members, "contentEncoding") && Get(members, "contentEncoding") == String(encoding)
    requires Has(members, "contentMediaType") && Get(members, "contentMediaType") == String(media)
    ensures DocSat(refs, k, uris, Object(members), j) <==> (j.String? ==> k.contentError(encoding, media, j.s).None?)
  {
    StringsOnly(refs, k, uris, members, j);
    if j.String? { ContentAlone(k, members, encoding, media, j.s); }
  }

  lemma ContentAlone(k: Checks, members: seq<Member>, encoding: string, media: string, s: string)
    requires Alone(members, {"contentEncoding", "contentMediaType"})
    requires Has(members, "contentEncoding") && Get(members, "contentEncoding") == String(encoding)
    requires Has(members, "contentMediaType") && Get(members, "contentMediaType") == String(media)
    ensures StringDocSat(k, members, s) <==> k.contentError(encoding, media, s).None?
  {
    assert ContentOf(members) == Ok(Some((encoding, media)));
    assert !Has(members, "minLength") && !Has(members, "maxLength") && !Has(members, "pattern");
    assert !Has(members, "format");
  }

  /** `required` lists the names an object must have. */
  lemma {:induction false} RequiredLaw(refs: Oracle, k: Checks, uris: seq<U.Uri>, members: seq<Member>,
        names: seq<Json>, j: Json)
    requires Alone(members, {"required"}) && Has(members, "required") && Get(members, "required") == Array(names)
    requires forall i | 0 <= i < |names| :: names[i].String?
    ensures DocSat(refs, k, uris, Object(members), j) <==>
      (j.Object? ==> forall i | 0 <= i < |names| :: Has(j.members, names[i].s))
  {
    ObjectsOnly(refs, k, uris, members, j);
    if j.Object? { RequiredAlone(refs, k, uris, members, names, j.members); }
  }

  lemma {:induction false} RequiredAlone(refs: Oracle, k: Checks, us: seq<U.Uri>, members: seq<Member>,
        names: seq<Json>, instance: seq<Member>)
    requires Alone(members, {"required"}) && Has(members, "required") && Get(members, "required") == Array(names)
    requires forall i | 0 <= i < |names| :: names[i].String?
    ensures ObjectDocSat(refs, k, us, members, instance) <==>
      forall i | 0 <= i < |names| :: Has(instance, names[i].s)
  {
    assert !Has(members, "maxProperties") && !Has(members, "minProperties") && !Has(members, "propertyNames");
    assert !Has(members, "properties") && !Has(members, "patternProperties");
    assert !Has(members, "additionalProperties") && !Has(members, "dependencies");
    NamesListed(members, "required", names);
    var listed := NamesOf(members, "required").value;
    assert HasAll(instance, listed) <==> forall i | 0 <= i < |names| :: Has(instance, names[i].s) by {
      assert forall i | 0 <= i < |names| :: listed[i] == names[i].s;
    }
  }

  lemma NamesListed(members: seq<Member>, key: string, names: seq<Json>)
    requires Has(members, key) && Get(members, key) == Array(names) && forall i | 0 <= i < |names| :: names[i].String?
    ensures NamesOf(members, key).Ok? && |NamesOf(members, key).value| == |names|
    ensures forall i | 0 <= i < |names| :: NamesOf(members, key).value[i] == names[i].s
  {
  }

  /** `uniqueItems` asks for elements no two of which are the same. */
  lemma {:induction false} UniqueLaw(refs: Oracle, k: Checks, uris: seq<U.Uri>, members: seq<Member>, b: bool, j: Json)
    requires Alone(members, {"uniqueItems"}) && Has(members, "uniqueItems")
    requires Get(members, "uniqueItems") == Boolean(b)
    ensures DocSat(refs, k, uris, Object(members), j) <==>
      (b && j.Array? ==> forall i, h | 0 <= i < h < |j.items| :: !Same(j.items[i], j.items[h]))
  {
    ArraysOnly(refs, k, uris, members, j);
    assert !Has(members, "maxItems") && !Has(members, "minItems") && !Has(members, "items");
    assert !Has(members, "contains") && !Has(members, "additionalItems");
  }

  // ---------------------------------------------------------------- types and values

  ghost predicate OfType(name: string, j: Json) {
    match j
    case Null => name == "null"
    case Boolean(_) => name == "boolean"
    case Integer(_) => name == "integer" || name == "number"
    case Unsigned(_) => name == "integer" || name == "number"
    case Float(_) => name == "number"
    case String(_) => name == "string"
    case Array(_) => name == "array"
    case Object(_) => name == "object"
  }

  /** `type` names one type or lists several. */
  lemma {:induction false} TypeLaw(refs: Oracle, k: Checks, uris: seq<U.Uri>, members: seq<Member>, j: Json)
    requires Alone(members, {"type"}) && Has(members, "type")
    ensures DocSat(refs, k, uris, Object(members), j) <==>
      match Get(members, "type")
      case String(name) => OfType(name, j)
      case Array(items) => exists i | 0 <= i < |items| :: items[i].String? && OfType(items[i].s, j)
      case _ => false
  {
    TypeOnly(members);
    KindsCount(refs, k, uris, members, j);
    KindByType(refs, k, uris, members, TypesListed(members), j);
    BareType(refs, k, uris, members, TypesListed(members), j);
    TypesMeant(members, j);
  }

  lemma TypeOnly(members: seq<Member>)
    requires Alone(members, {"type"})
    ensures Free(members, LOGIC)
  {
    TypeApart();
  }

  lemma TypesMeant(members: seq<Member>, j: Json)
    requires Has(members, "type")
    ensures (exists name :: name in TypesListed(members) && OfType(name, j)) <==>
      match Get(members, "type")
      case String(name) => OfType(name, j)
      case Array(items) => exists i | 0 <= i < |items| :: items[i].String? && OfType(items[i].s, j)
      case _ => false
  {
    match Get(members, "type")
    case String(name) =>
      OneType(members, name);
      assert name in [name];
    case Array(items) => SeveralTypes(items, j);
    case _ =>
  }

  lemma {:induction false} SeveralTypes(items: seq<Json>, j: Json)
    ensures (exists i | 0 <= i < |items| :: items[i].String? && OfType(items[i].s, j)) <==>
      exists name :: name in KnownNames(items) && OfType(name, j)
  {
    if items != [] {
      var rest := items[1..];
      SeveralTypes(rest, j);
      if items[0].String? { TypeNames(items[0].s); }
      assert forall i | 0 < i < |items| :: items[i] == rest[i - 1];
      assert forall i | 0 <= i < |rest| :: rest[i] == items[i + 1];
    }
  }

  lemma {:induction false} BareType(refs: Oracle, k: Checks, us: seq<U.Uri>, members: seq<Member>, types: seq<string>,
        j: Json)
    requires Alone(members, {"type"})
    ensures TypedSat(refs, k, us, members, types, j) <==> exists name :: name in types && OfType(name, j)
  {
    match j
    case Integer(x) => BareNumber(k, members, types, x as real);
    case Unsigned(x) => BareNumber(k, members, types, x as real);
    case Float(x) => FreeNumber(k, members, false, x);
    case String(s) => BareString(k, members, types, s);
    case Array(items) => FreeArray(refs, k, us, members, items);
    case Object(instance) => FreeObject(refs, k, us, members, instance);
    case _ =>
  }

  lemma BareNumber(k: Checks, members: seq<Member>, types: seq<string>, x: real)
    requires Alone(members, {"type"})
    ensures IntegerSat(k, members, types, x) <==> "integer" in types || "number" in types
  {
    FreeNumber(k, members, true, x);
    FreeNumber(k, members, false, x);
  }

  lemma BareString(k: Checks, members: seq<Member>, types: seq<string>, s: string)
    requires Alone(members, {"type"})
    ensures StringDocSat(k, InEffect(members, types, "string", STRING_KEYS), s)
  {
    forall key | key in STRING_KEYS ensures !Has(Without(members, STRING_KEYS), key) {
      OptWithout(members, STRING_KEYS, key);
    }
    FreeString(k, InEffect(members, types, "string", STRING_KEYS), s);
  }

  /** `const` admits one value, `enum` those listed; numbers of different kinds may be the same. */
  lemma {:induction false} ValueLaw(refs: Oracle, k: Checks, uris: seq<U.Uri>, members: seq<Member>, key: string,
        j: Json)
    requires (key == "const" || key == "enum") && Alone(members, {key, "definitions"}) && Has(members, key)
    requires key == "enum" ==> Get(members, key).Array?
    ensures DocSat(refs, k, uris, Object(members), j) <==>
      if key == "const" then Same(Get(members, key), j)
      else exists i | 0 <= i < |Get(members, key).items| :: Same(Get(members, key).items[i], j)
  {
    NoId(uris, members);
    KeywordsCount(refs, k, uris, uris, members, j);
    NoLogic(refs, k, uris, members, j);
    NoKinds(refs, k, uris, members, j);
    if key == "const" { ConstCounts(refs, k, uris, members, j); } else { EnumCounts(refs, k, uris, members, j); }
  }

  /** The document is silent but for its values. */
  ghost predicate ValuesOnly(refs: Oracle, k: Checks, us: seq<U.Uri>, members: seq<Member>, j: Json) {
    && KindSat(refs, k, us, members, j) && LogicClause(refs, k, us, members, "not", j)
    && LogicClause(refs, k, us, members, "allOf", j) && LogicClause(refs, k, us, members, "anyOf", j)
    && LogicClause(refs, k, us, members, "oneOf", j) && IfClause(refs, k, us, members, j)
  }

  lemma {:induction false} ConstCounts(refs: Oracle, k: Checks, us: seq<U.Uri>, members: seq<Member>, j: Json)
    requires ValuesOnly(refs, k, us, members, j) && Has(members, "const") && Alone(members, {"const", "definitions"})
    ensures KeywordsSat(refs, k, us, members, j) <==> Same(Get(members, "const"), j)
  {
    assert !Has(members, "enum");
  }

  lemma {:induction false} EnumCounts(refs: Oracle, k: Checks, us: seq<U.Uri>, members: seq<Member>, j: Json)
    requires ValuesOnly(refs, k, us, members, j) && Has(members, "enum") && Alone(members, {"enum", "definitions"})
    requires Get(members, "enum").Array?
    ensures KeywordsSat(refs, k, us, members, j) <==>
      exists i | 0 <= i < |Get(members, "enum").items| :: Same(Get(members, "enum").items[i], j)
  {
    assert !Has(members, "const");
  }

  /** A document that speaks of no kind of instance admits all kinds. */
  lemma {:induction false} NoKinds(refs: Oracle, k: Checks, us: seq<U.Uri>, members: seq<Member>, j: Json)
    requires Alone(members, LOGIC)
    ensures KindSat(refs, k, us, members, j)
  {
    LogicApart();
    TypeApart();
    AloneFree(members, LOGIC, NUMBER_KEYS);
    OthersFree(refs, k, us, members, j);
  }

  /** A type listed twice admits its instances whatever the keywords for it say. */
  lemma {:induction false} TwiceLaw(refs: Oracle, k: Checks, uris: seq<U.Uri>, members: seq<Member>, name: string,
        j: Json)
    requires Free(members, LOGIC) && Has(members, "type")
    requires Get(members, "type") == Array([String(name), String(name)])
    requires name == "string" || name == "array" || name == "object"
    ensures DocSat(refs, k, uris, Object(members), j) <==> OfType(name, j)
  {
    KindsCount(refs, k, uris, members, j);
    TwoTypes(members, name);
    KindByType(refs, k, uris, members, [name, name], j);
    TwiceKind(refs, k, uris, members, name, j);
  }

  lemma TwoTypes(members: seq<Member>, name: string)
    requires Has(members, "type") && Get(members, "type") == Array([String(name), String(name)]) && name in KNOWN
    ensures TypesListed(members) == [name, name] && multiset([name, name])[name] == 2
  {
    var items := [String(name), String(name)];
    TypeNames(name);
    assert items[1..] == [String(name)] && items[1..][1..] == [] && KnownNames([]) == [];
    assert KnownNames(items[1..]) == [name];
  }

  lemma {:induction false} TwiceKind(refs: Oracle, k: Checks, us: seq<U.Uri>, members: seq<Member>, name: string,
        j: Json)
    requires (name == "string" || name == "array" || name == "object") && multiset([name, name])[name] == 2
    ensures TypedSat(refs, k, us, members, [name, name], j) <==> OfType(name, j)
  {
    if j.String? && name == "string" { ErasedString(k, members, [name, name], j.s); }
  }

  lemma ErasedString(k: Checks, members: seq<Member>, types: seq<string>, s: string)
    requires multiset(types)["string"] == 2
    ensures StringDocSat(k, InEffect(members, types, "string", STRING_KEYS), s)
  {
    forall key | key in STRING_KEYS ensures !Has(Without(members, STRING_KEYS), key) {
      OptWithout(members, STRING_KEYS, key);
    }
    FreeString(k, InEffect(members, types, "string", STRING_KEYS), s);
  }
}
