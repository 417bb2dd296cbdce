/** Schema documents: JSON values read keyword by keyword. */

module Documents {
  import opened Wrappers
  import opened Json
  import opened SchemaGraph
  import U = Uri

  /** Where an unknown keyword stands: the file and the pointer into its unknown keywords. */
  datatype Place = Place(location: string, pointer: Pointer)

  /** One of the places is the other, or lies inside it. */
  predicate Overlap(a: Place, b: Place) {
    a.location == b.location && (a.pointer <= b.pointer || b.pointer <= a.pointer)
  }

  predicate Apart(place: Place, active: set<Place>) {
    forall p | p in active :: !Overlap(p, place)
  }

  /** The exceptions that leave compilation, and the two ways to leave the model: `Entangled` when
      a step touches a keyword that is being compiled in place, `Outside` when a location comes up
      that is not among those considered. */
  datatype CompileError =
    | TypeError | NotASchema | NoBaseUri | BadUri(error: U.UriError) | BadRegex | NoChecker
    | AlreadyInserted | BadIndex | NoLoader | Undefined(undefined: string)
    | Entangled(asked: Place, compiled: Place) | Outside(location: string)

  // ---------------------------------------------------------------- keywords

  function Opt(members: seq<Member>, key: string): (r: Option<Json>)
    ensures r.Some? ==> Size(r.value) < Size(Object(members))
  {
    if Has(members, key) then Some(Get(members, key)) else None
  }

  /** The members whose key is not in the set: what erasing those keys leaves. */
  function Without(members: seq<Member>, keys: set<string>): seq<Member> {
    if members == [] then []
    else (if members[0].key in keys then [] else [members[0]]) + Without(members[1..], keys)
  }

  lemma {:induction false} OptWithout(members: seq<Member>, keys: set<string>, key: string)
    ensures Opt(Without(members, keys), key) == if key in keys then None else Opt(members, key)
  {
    if members != [] {
      OptWithout(members[1..], keys, key);
      var rest := Without(members[1..], keys);
      assert members == [members[0]] + members[1..];
      ReadCons(members[0], members[1..], key);
      ReadCons(members[0], rest, key);
      assert [] + rest == rest;
    }
  }

  lemma {:induction false} WithoutTwice(members: seq<Member>, a: set<string>, b: set<string>)
    ensures Without(Without(members, a), b) == Without(members, a + b)
  {
    if members != [] {
      WithoutTwice(members[1..], a, b);
      var rest := Without(members[1..], a);
      assert [] + rest == rest;
      if members[0].key !in a {
        assert ([members[0]] + rest)[1..] == rest;
      }
    }
  }

  lemma {:induction false} WithoutMember(members: seq<Member>, keys: set<string>, i: nat)
    requires i < |Without(members, keys)|
    ensures exists h :: i <= h < |members| && members[h] == Without(members, keys)[i]
  {
    var rest := Without(members[1..], keys);
    if members[0].key in keys {
      assert Without(members, keys) == rest;
      WithoutMember(members[1..], keys, i);
      var h :| i <= h < |members[1..]| && members[1..][h] == rest[i];
      assert members[h + 1] == rest[i];
    } else if i > 0 {
      WithoutMember(members[1..], keys, i - 1);
      var h :| i - 1 <= h < |members[1..]| && members[1..][h] == rest[i - 1];
      assert members[h + 1] == Without(members, keys)[i];
    } else {
      assert members[0] == Without(members, keys)[0];
    }
  }

  lemma {:induction false} WithoutSorted(members: seq<Member>, keys: set<string>)
    requires SortedKeys(members)
    ensures SortedKeys(Without(members, keys))
  {
    if members != [] {
      WithoutSorted(members[1..], keys);
      var all, rest := Without(members, keys), Without(members[1..], keys);
      if members[0].key in keys {
        assert all == rest;
      } else {
        forall i, j | 0 <= i < j < |all| ensures StringLess(all[i].key, all[j].key) {
          if i == 0 {
            WithoutMember(members[1..], keys, j - 1);
            var h :| j - 1 <= h < |members[1..]| && members[1..][h] == rest[j - 1];
            assert members[h + 1].key == all[j].key;
          } else {
            assert all[i] == rest[i - 1] && all[j] == rest[j - 1];
          }
        }
      }
    }
  }

  lemma {:induction false} WithoutWellFormed(members: seq<Member>, keys: set<string>)
    requires WellFormed(Object(members))
    ensures WellFormed(Object(Without(members, keys)))
  {
    WithoutSorted(members, keys);
    var rest := Without(members, keys);
    forall i | 0 <= i < |rest| ensures WellFormed(rest[i].value) {
      WithoutMember(members, keys, i);
    }
  }

  // ---------------------------------------------------------------- conversions

  const SIZE_LIMIT := 0x1_0000_0000_0000_0000

  function Truncated(r: real): int {
    if r >= 0.0 then r.Floor else -((-r).Floor)
  }

  /** `get<size_t>()`: negative numbers wrap around. */
  function AsSize(j: Json): Result<nat, CompileError> {
    match j
    case Unsigned(u) => Ok(u)
    case Integer(i) => Ok(i % SIZE_LIMIT)
    case Float(r) => Ok(Truncated(r) % SIZE_LIMIT)
    case _ => Err(TypeError)
  }

  /** The number a bound stands for: bounds of integers lose their fraction. */
  function AsBound(j: Json, integral: bool): Result<real, CompileError> {
    match j
    case Unsigned(u) => Ok(u as real)
    case Integer(i) => Ok(i as real)
    case Float(r) => Ok(if integral then Truncated(r) as real else r)
    case _ => Err(TypeError)
  }

  function AsString(j: Json): Result<string, CompileError> {
    if j.String? then Ok(j.s) else Err(TypeError)
  }

  function AsStrings(j: Json): Result<seq<string>, CompileError> {
    if j.Array? && forall i | 0 <= i < |j.items| :: j.items[i].String?
    then Ok(seq(|j.items|, i requires 0 <= i < |j.items| => j.items[i].s))
    else Err(TypeError)
  }

  function OptSize(members: seq<Member>, key: string): Result<Option<nat>, CompileError> {
    match Opt(members, key)
    case None => Ok(None)
    case Some(j) => match AsSize(j) case Ok(n) => Ok(Some(n)) case Err(e) => Err(e)
  }

  function OptBound(members: seq<Member>, key: string, integral: bool): Result<Option<real>, CompileError> {
    match Opt(members, key)
    case None => Ok(None)
    case Some(j) => match AsBound(j, integral) case Ok(x) => Ok(Some(x)) case Err(e) => Err(e)
  }

  function OptString(members: seq<Member>, key: string): Result<Option<string>, CompileError> {
    match Opt(members, key)
    case None => Ok(None)
    case Some(j) => match AsString(j) case Ok(s) => Ok(Some(s)) case Err(e) => Err(e)
  }

  // ---------------------------------------------------------------- iteration

  /** What iterating a JSON value yields: elements, member values, or the value itself. */
  function Values(j: Json): (r: seq<Json>)
    ensures forall i | 0 <= i < |r| :: Size(r[i]) <= Size(j)
  {
    match j
    case Array(items) => items
    case Object(members) => seq(|members|, i requires 0 <= i < |members| => members[i].value)
    case Null => []
    case _ => [j]
  }

  /** The keys `items()` pairs with those values. */
  function Keys(j: Json): (r: seq<string>)
    ensures |r| == |Values(j)|
  {
    match j
    case Array(items) => seq(|items|, i requires 0 <= i < |items| => Decimal(i))
    case Object(members) => seq(|members|, i requires 0 <= i < |members| => members[i].key)
    case Null => []
    case _ => [""]
  }

  lemma {:induction false} KeysDistinct(j: Json, i: nat, h: nat)
    requires WellFormed(j) && i < h < |Keys(j)|
    ensures Keys(j)[i] != Keys(j)[h]
  {
    match j
    case Array(_) =>
      DecimalValue(i);
      DecimalValue(h);
    case Object(members) =>
      StringLessTrichotomy(members[i].key, members[h].key);
    case _ =>
  }

  lemma {:induction false} ValuesWellFormed(j: Json)
    requires WellFormed(j)
    ensures forall i | 0 <= i < |Values(j)| :: WellFormed(Values(j)[i])
  {
  }

  /** A sub-schema, the tokens its URIs get, and the tokens that lead to where it stands. */
  datatype Entry = Entry(keys: seq<string>, at: Pointer, doc: Json)

  /** Sub-schemas under the keys of `items()`, their URIs behind a common prefix of tokens. */
  function Keyed(j: Json, prefix: seq<string>, keyword: string): (r: seq<Entry>)
    ensures |r| == |Values(j)|
    ensures forall i | 0 <= i < |r| :: r[i].doc == Values(j)[i] && r[i].keys == prefix + [Keys(j)[i]]
  {
    seq(|Values(j)|, i requires 0 <= i < |Values(j)| => Entry(prefix + [Keys(j)[i]], [keyword, Keys(j)[i]],
      Values(j)[i]))
  }

  /** Sub-schemas numbered in order. */
  function Numbered(j: Json, keyword: string): (r: seq<Entry>)
    ensures |r| == |Values(j)|
    ensures forall i | 0 <= i < |r| :: r[i].doc == Values(j)[i] && r[i].keys == [keyword, Decimal(i)]
  {
    seq(|Values(j)|, i requires 0 <= i < |Values(j)| => Entry([keyword, Decimal(i)], [keyword, Keys(j)[i]],
      Values(j)[i]))
  }

  // ---------------------------------------------------------------- URIs in scope

  /** Equality of URIs: the parts of the location and the fragment. */
  predicate SameUri(a: U.Uri, b: U.Uri) {
    && a.urn == b.urn && a.scheme == b.scheme && a.authority == b.authority && a.path == b.path
    && U.Fragment(a) == U.Fragment(b)
  }

  /** Plain-name URIs do not reach sub-schemas. */
  function Pointed(uris: seq<U.Uri>): seq<U.Uri> {
    if uris == [] then []
    else (if uris[0].identifier != "" then [] else [uris[0]]) + Pointed(uris[1..])
  }

  function Extended(u: U.Uri, keys: seq<string>): U.Uri
    decreases |keys|
  {
    if keys == [] then u else Extended(U.Append(u, keys[0]), keys[1..])
  }

  /** The URIs of a sub-schema found under these tokens. */
  function Scope(uris: seq<U.Uri>, keys: seq<string>): seq<U.Uri> {
    var us := Pointed(uris);
    seq(|us|, i requires 0 <= i < |us| => Extended(us[i], keys))
  }

  /** `$id` adds a URI, resolved from the last one, unless it is already there. */
  function IdScope(uris: seq<U.Uri>, members: seq<Member>): Result<seq<U.Uri>, CompileError> {
    match Opt(members, "$id")
    case None => Ok(uris)
    case Some(String(id)) =>
      (match U.Parse(id)
       case Err(e) => Err(BadUri(e))
       case Ok(p) =>
         if exists i | 0 <= i < |uris| :: SameUri(uris[i], p) then Ok(uris)
         else if uris == [] then Err(NoBaseUri)
         else match U.Derive(uris[|uris| - 1], id)
           case Err(e) => Err(BadUri(e))
           case Ok(u) => Ok(uris + [u]))
    case Some(_) => Err(TypeError)
  }

  /** The URIs a schema is registered under: those of its scope and the one its `$id` adds. */
  function FinalScope(scope: seq<U.Uri>, doc: Json): seq<U.Uri> {
    match doc
    case Object(members) => (match IdScope(scope, members) case Ok(us) => us case Err(_) => scope)
    case _ => scope
  }

  /** The URI a `$ref` stands for, resolved from the last URI in scope. */
  function RefUri(uris: seq<U.Uri>, members: seq<Member>): Result<U.Uri, CompileError> {
    match Opt(members, "$ref")
    case Some(String(s)) =>
      if uris == [] then Err(NoBaseUri)
      else (match U.Derive(uris[|uris| - 1], s) case Err(e) => Err(BadUri(e)) case Ok(u) => Ok(u))
    case _ => Err(TypeError)
  }

  // ---------------------------------------------------------------- texts that become URIs

  /** The strings found under `$ref` or `$id` anywhere in a document. */
  ghost function Texts(j: Json): set<string>
    decreases j
  {
    match j
    case Array(items) => set i, t | 0 <= i < |items| && t in Texts(items[i]) :: t
    case Object(members) => set i, t | 0 <= i < |members| && t in MemberTexts(members[i]) :: t
    case _ => {}
  }

  ghost function MemberTexts(m: Member): set<string>
    decreases m
  {
    Texts(m.value) + (if (m.key == "$ref" || m.key == "$id") && m.value.String? then {m.value.s} else {})
  }

  lemma OptTexts(members: seq<Member>, key: string)
    requires Has(members, key)
    ensures Texts(Get(members, key)) <= Texts(Object(members))
    ensures (key == "$ref" || key == "$id") && Get(members, key).String? ==>
      Get(members, key).s in Texts(Object(members))
  {
    var i := IndexOf(members, key);
    assert MemberTexts(members[i]) <= Texts(Object(members));
  }

  lemma {:induction false} WithoutTexts(members: seq<Member>, keys: set<string>)
    ensures Texts(Object(Without(members, keys))) <= Texts(Object(members))
  {
    var rest := Without(members, keys);
    forall t | t in Texts(Object(rest)) ensures t in Texts(Object(members)) {
      var i :| 0 <= i < |rest| && t in MemberTexts(rest[i]);
      WithoutMember(members, keys, i);
      var h :| i <= h < |members| && members[h] == rest[i];
      assert t in MemberTexts(members[h]);
    }
  }

  lemma {:induction false} ValuesTexts(j: Json)
    ensures forall i | 0 <= i < |Values(j)| :: Texts(Values(j)[i]) <= Texts(j)
  {
    forall i, t | 0 <= i < |Values(j)| && t in Texts(Values(j)[i]) ensures t in Texts(j) {
      match j
      case Object(members) => assert t in MemberTexts(members[i]);
      case _ =>
    }
  }
}
