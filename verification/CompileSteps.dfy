/** What compiling one document consumes of it, where its unknown keywords go, and what its
    pieces denote. */

module CompileSteps {
  import opened Wrappers
  import opened Json
  import opened SchemaGraph
  import opened Documents
  import opened Registry
  import opened Denotation
  import U = Uri

  // ---------------------------------------------------------------- consumed keywords

  function KindConsumed(members: seq<Member>, name: string): set<string> {
    if name == "string" then STRING_KEYS
    else if name == "object" then OBJECT_KEYS
    else if name == "array" then ArrayConsumed(members)
    else {}
  }

  /** `additionalItems` is read, and erased, only behind a list of item schemas. */
  function ArrayConsumed(members: seq<Member>): set<string> {
    ARRAY_KEYS + (if Opt(members, "items").Some? && Opt(members, "items").value.Array? then {"additionalItems"} else {})
  }

  function KindsConsumed(members: seq<Member>, types: seq<string>): set<string> {
    if types == [] then {} else KindsConsumed(members, types[..|types| - 1]) + KindConsumed(members, types[|types| - 1])
  }

  function TypeConsumed(members: seq<Member>): set<string> {
    var types := TypesListed(members);
    KindsConsumed(members, types) + {"type", "default", "enum", "const", "not", "allOf", "anyOf", "oneOf", "if"}
    + (if "integer" in types || "number" in types then NUMBER_KEYS else {})
    + (if Has(members, "if") then {"then", "else"} else {})
  }

  /** The keywords that compiling an object schema takes out of it; the rest are unknown. */
  function Consumed(members: seq<Member>): set<string> {
    {"$id", "definitions", "$schema", "title", "description"}
    + (if Has(members, "$ref") then {"$ref", "default"} else TypeConsumed(members))
  }

  function Leftover(doc: Json): Json {
    match doc
    case Object(members) => Object(Without(members, Consumed(members)))
    case _ => doc
  }

  /** The unknown keywords of a schema with a `$ref` are all but the few that are read beside it. */
  lemma UnknownBesideReference(members: seq<Member>, key: string)
    requires Has(members, "$ref")
    ensures Has(Leftover(Object(members)).members, key) <==>
      Has(members, key) && key !in {"$ref", "$id", "definitions", "default", "$schema", "title", "description"}
  {
    OptWithout(members, Consumed(members), key);
  }

  /** Without a `type`, the unknown keywords are those that mean nothing to any validator; among
      them are `then` and `else` without `if`, and `additionalItems` without a list of items. */
  lemma UnknownWithoutType(members: seq<Member>, key: string)
    requires !Has(members, "$ref") && !Has(members, "type")
    ensures Has(Leftover(Object(members)).members, key) <==>
      && Has(members, key) && !(key in VALIDATED)
      && !(key in {"then", "else"} && Has(members, "if"))
      && !(key == "additionalItems" && Has(members, "items") && Get(members, "items").Array?)
  {
    OptWithout(members, Consumed(members), key);
    EveryKindConsumed(members, key);
  }

  const VALIDATED := {
    "$id", "definitions", "$schema", "title", "description", "type", "default", "enum", "const",
    "not", "allOf", "anyOf", "oneOf", "if", "maximum", "minimum", "exclusiveMaximum", "exclusiveMinimum", "multipleOf",
    "maxLength", "minLength", "contentEncoding", "contentMediaType", "pattern", "format",
    "maxProperties", "minProperties", "required", "properties", "patternProperties", "additionalProperties",
    "dependencies", "propertyNames", "maxItems", "minItems", "uniqueItems", "items", "contains"}

  lemma EveryKindConsumed(members: seq<Member>, key: string)
    requires !Has(members, "$ref") && !Has(members, "type")
    ensures key in Consumed(members) <==>
      || key in VALIDATED || (key in {"then", "else"} && Has(members, "if"))
      || (key == "additionalItems" && Has(members, "items") && Get(members, "items").Array?)
  {
    var types := TypesListed(members);
    assert types == ["null", "object", "array", "string", "boolean", "integer", "number"];
    AllKinds(members, types);
    assert types[5] == "integer";
  }

  lemma {:induction false} AllKinds(members: seq<Member>, types: seq<string>)
    requires types == ["null", "object", "array", "string", "boolean", "integer", "number"]
    ensures KindsConsumed(members, types) == OBJECT_KEYS + ArrayConsumed(members) + STRING_KEYS
  {
    KindsFromStart(members, types, 7);
  }

  lemma {:induction false} KindsFromStart(members: seq<Member>, types: seq<string>, n: nat)
    requires types == ["null", "object", "array", "string", "boolean", "integer", "number"] && n <= 7
    ensures KindsConsumed(members, types[..n]) ==
      (if n >= 2 then OBJECT_KEYS else {}) + (if n >= 3 then ArrayConsumed(members) else {})
      + (if n >= 4 then STRING_KEYS else {})
    ensures types[..7] == types
  {
    if n > 0 {
      KindsFromStart(members, types, n - 1);
      assert types[..n][..n - 1] == types[..n - 1] && types[..n][n - 1] == types[n - 1];
    }
  }

  lemma {:induction false} WithoutSize(members: seq<Member>, keys: set<string>)
    ensures SizeMembers(Without(members, keys)) <= SizeMembers(members)
  {
    if members != [] {
      WithoutSize(members[1..], keys);
      var rest := Without(members[1..], keys);
      assert [] + rest == rest;
      if members[0].key !in keys {
        assert ([members[0]] + rest)[1..] == rest;
      }
    }
  }

  lemma {:induction false} LeftoverSize(doc: Json)
    ensures Size(Leftover(doc)) <= Size(doc)
  {
    if doc.Object? { WithoutSize(doc.members, Consumed(doc.members)); }
  }

  lemma {:induction false} LeftoverKeeps(doc: Json)
    requires WellFormed(doc)
    ensures WellFormed(Leftover(doc)) && Texts(Leftover(doc)) <= Texts(doc)
  {
    if doc.Object? {
      WithoutWellFormed(doc.members, Consumed(doc.members));
      WithoutTexts(doc.members, Consumed(doc.members));
    }
  }

  /** What erasing keywords in place, at any depth of nested objects, can leave. */
  ghost predicate Shrunk(a: Json, b: Json) {
    && WellFormed(b) && Texts(b) <= Texts(a) && Size(b) <= Size(a)
    && a.Object? == b.Object? && (!a.Object? ==> b == a)
    && (a.Object? ==> NoNewKeys(a.members, b.members))
  }

  ghost predicate NoNewKeys(a: seq<Member>, b: seq<Member>) {
    forall key | Has(b, key) :: Has(a, key)
  }

  lemma ShrunkTwice(a: Json, b: Json, c: Json)
    requires Shrunk(a, b) && Shrunk(b, c)
    ensures Shrunk(a, c)
  {
  }

  lemma {:induction false} LeftoverShrinks(doc: Json)
    requires WellFormed(doc)
    ensures Shrunk(doc, Leftover(doc))
  {
    LeftoverKeeps(doc);
    LeftoverSize(doc);
    if doc.Object? { NoNewKeysWithout(doc.members, Consumed(doc.members)); }
  }

  lemma {:induction false} NoNewKeysWithout(members: seq<Member>, keys: set<string>)
    ensures NoNewKeys(members, Without(members, keys))
  {
    forall key | Has(Without(members, keys), key) ensures Has(members, key) { OptWithout(members, keys, key); }
  }

  /** One member of an object shrinks. */
  lemma {:induction false} ShrunkMember(parent: Json, i: nat, value: Json)
    requires parent.Object? && WellFormed(parent) && i < |parent.members| && Shrunk(parent.members[i].value, value)
    ensures Shrunk(parent, Object(parent.members[i := Member(parent.members[i].key, value)]))
  {
    var ms := parent.members;
    var r := ms[i := Member(ms[i].key, value)];
    MembersShrink(ms, i, value);
    forall t | t in Texts(Object(r)) ensures t in Texts(parent) {
      var h :| 0 <= h < |r| && t in MemberTexts(r[h]);
      assert t in MemberTexts(ms[h]);
    }
    forall h, j | 0 <= h < j < |r| ensures StringLess(r[h].key, r[j].key) {
      assert r[h].key == ms[h].key && r[j].key == ms[j].key;
    }
    forall key | Has(r, key) ensures Has(ms, key) {
      assert ms[IndexOf(r, key)].key == key;
    }
  }

  /** The members from i on are still as they were. */
  ghost predicate LeftFrom(parent: Json, left: Json, i: nat) {
    && Shrunk(parent, left) && parent.Object? && left.Object?
    && i <= |left.members| == |parent.members| && left.members[i..] == parent.members[i..]
  }

  lemma NextLeft(parent: Json, left: Json, i: nat, value: Json)
    requires LeftFrom(parent, left, i) && i < |parent.members| && Shrunk(parent.members[i].value, value)
    ensures LeftFrom(parent, Object(left.members[i := Member(parent.members[i].key, value)]), i + 1)
  {
    assert left.members[i] == left.members[i..][0] == parent.members[i];
    var next := left.members[i := Member(parent.members[i].key, value)];
    ShrunkMember(left, i, value);
    ShrunkTwice(parent, left, Object(next));
    assert next[i + 1..] == left.members[i..][1..];
    assert parent.members[i + 1..] == parent.members[i..][1..];
  }

  lemma {:induction false} MembersShrink(ms: seq<Member>, i: nat, value: Json)
    requires i < |ms| && Size(value) <= Size(ms[i].value)
    ensures SizeMembers(ms[i := Member(ms[i].key, value)]) <= SizeMembers(ms)
  {
    var r := ms[i := Member(ms[i].key, value)];
    if i == 0 {
      assert r[1..] == ms[1..];
    } else {
      assert r[1..] == ms[1..][i - 1 := Member(ms[i].key, value)];
      MembersShrink(ms[1..], i - 1, value);
    }
  }

  // ---------------------------------------------------------------- scopes

  /** A URI with a pointer has no plain name, and a plain name is no pointer. */
  ghost predicate OneFragment(u: U.Uri) {
    && (u.pointer != [] ==> u.identifier == "")
    && (u.identifier != "" ==> u.identifier[0] != '/')
  }

  /** The URIs lie at locations that are considered. */
  predicate InUniverse(universe: set<string>, uris: seq<U.Uri>) {
    forall i | 0 <= i < |uris| :: U.Location(uris[i]) in universe
  }

  lemma {:induction false} ExtendedLocation(u: U.Uri, keys: seq<string>)
    ensures U.Location(Extended(u, keys)) == U.Location(u)
    decreases |keys|
  {
    if keys != [] { ExtendedLocation(U.Append(u, keys[0]), keys[1..]); }
  }

  lemma {:induction false} PointedFrom(uris: seq<U.Uri>, i: nat)
    requires i < |Pointed(uris)|
    ensures Pointed(uris)[i] in uris
  {
    if uris[0].identifier != "" {
      assert Pointed(uris) == Pointed(uris[1..]);
      PointedFrom(uris[1..], i);
    } else if i > 0 {
      PointedFrom(uris[1..], i - 1);
    }
  }

  lemma ScopeInUniverse(universe: set<string>, uris: seq<U.Uri>, keys: seq<string>)
    requires InUniverse(universe, uris)
    ensures InUniverse(universe, Scope(uris, keys))
  {
    forall i | 0 <= i < |Scope(uris, keys)| ensures U.Location(Scope(uris, keys)[i]) in universe {
      PointedFrom(uris, i);
      ExtendedLocation(Pointed(uris)[i], keys);
    }
  }

  /** `$id` adds one URI at most. */
  lemma IdScopeAdds(uris: seq<U.Uri>, members: seq<Member>)
    requires IdScope(uris, members).Ok?
    ensures var us := IdScope(uris, members).value;
      us == uris || (us != [] && us == uris + [us[|us| - 1]])
  {
  }

  /** The places inside documents that references can ask for. */
  ghost function PlacesOf(universe: set<string>, texts: set<string>): set<Place> {
    set l, t | l in universe && t in texts && U.PointerIn(t) != [] :: Place(l, U.PointerIn(t))
  }

  lemma RefUriAsks(universe: set<string>, texts: set<string>, uris: seq<U.Uri>, members: seq<Member>)
    requires RefUri(uris, members).Ok? && U.Location(RefUri(uris, members).value) in universe
    requires forall t | t in Texts(Object(members)) :: t in texts
    ensures var u := RefUri(uris, members).value;
      OneFragment(u) && (u.pointer != [] ==> Place(U.Location(u), u.pointer) in PlacesOf(universe, texts))
  {
    OptTexts(members, "$ref");
    U.DerivedPointer(uris[|uris| - 1], Get(members, "$ref").s);
  }

  // ---------------------------------------------------------------- unknown keywords

  /** Stores a value under a key of the object the tokens lead to, creating objects on the way. */
  function PutPath(j: Json, tokens: seq<string>, key: string, value: Json): Option<Json>
    decreases |tokens|
  {
    if !j.Null? && !j.Object? then None
    else
      var members := if j.Object? then j.members else [];
      if tokens == [] then Some(Object(Put(members, key, value)))
      else
        match PutPath(if Has(members, tokens[0]) then Get(members, tokens[0]) else Object([]), tokens[1..], key, value)
        case None => None
        case Some(sub) => Some(Object(Put(members, tokens[0], sub)))
  }

  lemma {:induction false} PutMember(members: seq<Member>, key: string, value: Json)
    requires WellFormed(Object(members)) && WellFormed(value)
    ensures WellFormed(Object(Put(members, key, value)))
    ensures Texts(Object(Put(members, key, value))) <= Texts(Object(members)) + MemberTexts(Member(key, value))
  {
    var r := Put(members, key, value);
    PutSorted(members, key, value);
    forall i | 0 <= i < |r| ensures r[i] == Member(key, value) || exists h :: 0 <= h < |members| && members[h] == r[i] {
      PutMembers(members, key, value, i);
    }
    forall t | t in Texts(Object(r)) ensures t in Texts(Object(members)) + MemberTexts(Member(key, value)) {
      var i :| 0 <= i < |r| && t in MemberTexts(r[i]);
      if r[i] != Member(key, value) {
        var h :| 0 <= h < |members| && members[h] == r[i];
        assert t in MemberTexts(members[h]);
      }
    }
  }

  lemma {:induction false} PutPathKeeps(j: Json, tokens: seq<string>, key: string, value: Json)
    requires WellFormed(j) && WellFormed(value) && PutPath(j, tokens, key, value).Some?
    ensures WellFormed(PutPath(j, tokens, key, value).value)
    ensures Texts(PutPath(j, tokens, key, value).value) <= Texts(j) + MemberTexts(Member(key, value))
    decreases |tokens|
  {
    var members := if j.Object? then j.members else [];
    assert Texts(Object([])) == {} && WellFormed(Object(members)) && Texts(Object(members)) <= Texts(j);
    if tokens == [] {
      PutMember(members, key, value);
    } else {
      var next := NextOnPath(members, tokens[0]);
      PutPathKeeps(next, tokens[1..], key, value);
      PutInner(members, tokens[0], next, PutPath(next, tokens[1..], key, value).value, MemberTexts(Member(key, value)));
    }
  }

  lemma NextOnPath(members: seq<Member>, token: string) returns (next: Json)
    requires WellFormed(Object(members))
    ensures next == if Has(members, token) then Get(members, token) else Object([])
    ensures WellFormed(next) && Texts(next) <= Texts(Object(members))
  {
    next := if Has(members, token) then Get(members, token) else Object([]);
    assert Texts(Object([])) == {};
    if Has(members, token) { OptTexts(members, token); }
  }

  lemma {:induction false} PutInner(members: seq<Member>, token: string, next: Json, sub: Json, more: set<string>)
    requires WellFormed(Object(members)) && WellFormed(sub) && sub.Object?
    requires Texts(next) <= Texts(Object(members)) && Texts(sub) <= Texts(next) + more
    ensures WellFormed(Object(Put(members, token, sub)))
    ensures Texts(Object(Put(members, token, sub))) <= Texts(Object(members)) + more
  {
    PutMember(members, token, sub);
    assert MemberTexts(Member(token, sub)) == Texts(sub);
  }

  /** A keyword kept under its tokens is found there. */
  lemma {:induction false} PutPathFound(j: Json, tokens: seq<string>, key: string, value: Json)
    requires PutPath(j, tokens, key, value).Some?
    ensures At(PutPath(j, tokens, key, value).value, tokens + [key]) == Found(value)
    decreases |tokens|
  {
    var members := if j.Object? then j.members else [];
    if tokens == [] {
      PutGet(members, key, value, key);
      assert [key][1..] == [] && tokens + [key] == [key];
    } else {
      var next := if Has(members, tokens[0]) then Get(members, tokens[0]) else Object([]);
      PutPathFound(next, tokens[1..], key, value);
      PutGet(members, tokens[0], PutPath(next, tokens[1..], key, value).value, tokens[0]);
      assert (tokens + [key])[1..] == tokens[1..] + [key];
    }
  }

  /** What stands elsewhere, neither above nor below it, stays. */
  lemma {:induction false} PutPathElsewhere(j: Json, tokens: seq<string>, key: string, value: Json, q: Pointer)
    requires PutPath(j, tokens, key, value).Some? && !(q <= tokens + [key]) && !(tokens + [key] <= q)
    ensures At(PutPath(j, tokens, key, value).value, q) == At(j, q)
    decreases |tokens|
  {
    var members := if j.Object? then j.members else [];
    var path := tokens + [key];
    assert At(Object(members), q) == At(j, q);
    if tokens == [] {
      assert q[0] != key by { assert [q[0]] <= q; }
      PutBeside(members, key, value, q);
    } else {
      var next := if Has(members, tokens[0]) then Get(members, tokens[0]) else Object([]);
      var sub := PutPath(next, tokens[1..], key, value).value;
      PutBeside(members, tokens[0], sub, q);
      if q[0] == tokens[0] {
        TailsApart(q, tokens, key);
        PutPathElsewhere(next, tokens[1..], key, value, q[1..]);
        assert At(Object([]), q[1..]) == OutOfRange;
      }
    }
  }

  lemma TailsApart(q: Pointer, tokens: seq<string>, key: string)
    requires q != [] && tokens != [] && q[0] == tokens[0] && !(q <= tokens + [key]) && !(tokens + [key] <= q)
    ensures q[1..] != [] && !(q[1..] <= tokens[1..] + [key]) && !(tokens[1..] + [key] <= q[1..])
  {
    var path := tokens + [key];
    assert path[1..] == tokens[1..] + [key];
    assert q == [q[0]] + q[1..] && path == [path[0]] + path[1..];
  }

  lemma {:induction false} PutBeside(members: seq<Member>, token: string, sub: Json, q: Pointer)
    requires q != []
    ensures At(Object(Put(members, token, sub)), q) ==
            if q[0] == token then At(sub, q[1..]) else At(Object(members), q)
  {
    PutGet(members, token, sub, q[0]);
  }

  lemma {:induction false} AtKeeps(j: Json, p: Pointer)
    requires WellFormed(j) && At(j, p).Found?
    ensures WellFormed(At(j, p).json) && Texts(At(j, p).json) <= Texts(j)
  {
    if p != [] {
      match j {
        case Object(members) => OptTexts(members, p[0]);
        case Array(items) =>
          var i := DigitsValue(p[0]);
          assert Texts(items[i]) <= Texts(j);
      }
      AtKeeps(Child(j, p[0]).json, p[1..]);
    }
  }

  /** One child of an object or array replaced. */
  function WithChild(j: Json, token: string, sub: Json): Json
    requires Child(j, token).Found?
  {
    match j
    case Object(members) => Object(Put(members, token, sub))
    case Array(items) => Array(items[DigitsValue(token) := sub])
  }

  /** A document turned into a schema leaves only what compiling did not consume. */
  function ReplaceAt(j: Json, p: Pointer, value: Json): Json
    decreases |p|
  {
    if p == [] then value
    else if Child(j, p[0]).Found? then WithChild(j, p[0], ReplaceAt(Child(j, p[0]).json, p[1..], value))
    else j
  }

  lemma {:induction false} ReplaceAtKeeps(j: Json, p: Pointer, value: Json)
    requires WellFormed(j) && WellFormed(value) && (value.Object? || value.Boolean?)
    ensures WellFormed(ReplaceAt(j, p, value)) && Texts(ReplaceAt(j, p, value)) <= Texts(j) + Texts(value)
    decreases |p|
  {
    if p != [] && Child(j, p[0]).Found? {
      var c := Child(j, p[0]).json;
      match j {
        case Object(members) =>
          OptTexts(members, p[0]);
          ReplaceAtKeeps(c, p[1..], value);
          var sub := ReplaceAt(c, p[1..], value);
          ReplaceAtKind(c, p[1..], value);
          PutMember(members, p[0], sub);
          if sub.String? {
            assert sub == c;
          }
        case Array(items) =>
          var i := DigitsValue(p[0]);
          assert Texts(items[i]) <= Texts(j);
          ReplaceAtKeeps(c, p[1..], value);
          var sub := ReplaceAt(c, p[1..], value);
          var r := items[i := sub];
          forall t | t in Texts(Array(r)) ensures t in Texts(j) + Texts(value) {
            var h :| 0 <= h < |r| && t in Texts(r[h]);
            if h != i { assert t in Texts(items[h]); }
          }
      }
    }
  }

  lemma {:induction false} ReplaceAtKind(j: Json, p: Pointer, value: Json)
    requires value.Object? || value.Boolean?
    ensures ReplaceAt(j, p, value).String? ==> ReplaceAt(j, p, value) == j
    decreases |p|
  {
  }

  /** What replaces a keyword stands where the keyword stood. */
  lemma {:induction false} ReplaceAtFound(j: Json, p: Pointer, value: Json)
    requires At(j, p).Found?
    ensures At(ReplaceAt(j, p, value), p) == Found(value)
    decreases |p|
  {
    if p != [] {
      var c := Child(j, p[0]).json;
      ReplaceAtFound(c, p[1..], value);
      WithChildFound(j, p[0], ReplaceAt(c, p[1..], value));
    }
  }

  lemma WithChildFound(j: Json, token: string, sub: Json)
    requires Child(j, token).Found?
    ensures Child(WithChild(j, token, sub), token) == Found(sub)
  {
    if j.Object? { PutGet(j.members, token, sub, token); }
  }

  /** Replacing what stands at one place changes nothing beside it. */
  lemma {:induction false} ReplaceAtElsewhere(j: Json, p: Pointer, value: Json, q: Pointer)
    requires !(p <= q) && !(q <= p)
    ensures At(ReplaceAt(j, p, value), q) == At(j, q)
    decreases |p|
  {
    if Child(j, p[0]).Found? {
      var sub := ReplaceAt(Child(j, p[0]).json, p[1..], value);
      ChildReplaced(j, p[0], sub, q[0]);
      if p[0] == q[0] {
        assert p == [p[0]] + p[1..] && q == [q[0]] + q[1..];
        ReplaceAtElsewhere(Child(j, p[0]).json, p[1..], value, q[1..]);
      }
    }
  }

  /** No two tokens reach the same child. */
  lemma ChildReplaced(j: Json, token: string, sub: Json, other: string)
    requires Child(j, token).Found?
    ensures Child(WithChild(j, token, sub), other) == if other == token then Found(sub) else Child(j, other)
  {
    match j
    case Object(members) => PutGet(members, token, sub, other);
    case Array(items) => ItemReplaced(items, token, sub, other);
  }

  lemma {:induction false} ItemReplaced(items: seq<Json>, token: string, sub: Json, other: string)
    requires ItemAt(items, token).Found?
    ensures ItemAt(items[DigitsValue(token) := sub], other) == if other == token then Found(sub)
      else ItemAt(items, other)
  {
    DecimalOfValue(token);
    if ItemAt(items, other).Found? { DecimalOfValue(other); }
  }

  // ---------------------------------------------------------------- ids stay in the graph

  lemma {:induction false} LogicIdsFrom(logic: seq<Logic>, id: Id)
    requires id in LogicIds(logic)
    ensures exists l ::
      0 <= l < |logic| && (if logic[l].Not? then logic[l].subschema == id else id in logic[l].subschemas)
  {
    var head := match logic[0] case Not(s) => [s] case Combine(_, ss) => ss;
    if id !in head {
      LogicIdsFrom(logic[1..], id);
      var l :| 0 <= l < |logic[1..]|
          && (if logic[1..][l].Not? then logic[1..][l].subschema == id else id in logic[1..][l].subschemas);
      assert logic[l + 1] == logic[1..][l];
    } else {
      assert if logic[0].Not? then logic[0].subschema == id else id in logic[0].subschemas;
    }
  }

  lemma {:induction false} DependencyIdsFrom(ds: seq<Dependency>, id: Id)
    requires id in DependencyIds(ds)
    ensures exists i :: 0 <= i < |ds| && ds[i].requirement == Schema(id)
  {
    if ds[0].requirement != Schema(id) {
      DependencyIdsFrom(ds[1..], id);
      var i :| 0 <= i < |ds[1..]| && ds[1..][i].requirement == Schema(id);
      assert ds[i + 1].requirement == Schema(id);
    }
  }

  lemma {:induction false} PropertyIdsFrom(ps: seq<Property>, id: Id)
    requires id in PropertyIds(ps)
    ensures exists i :: 0 <= i < |ps| && ps[i].schema == id
  {
    if ps[0].schema != id {
      PropertyIdsFrom(ps[1..], id);
      var i :| 0 <= i < |ps[1..]| && ps[1..][i].schema == id;
      assert ps[i + 1].schema == id;
    }
  }

  ghost predicate OptionIn(o: Option<Id>, bound: nat) { o.Some? ==> o.value < bound }

  lemma {:induction false} PlacedIn(reg: Registry, scope: seq<U.Uri>, doc: Json, n: Id)
    requires Placed(reg, scope, doc, n)
    ensures n < |reg.nodes|
  {
    assert Denotes(reg, scope, doc, n);
  }

  lemma {:induction false} OptionDenotesIn(reg: Registry, us: seq<U.Uri>, members: seq<Member>, key: string,
        o: Option<Id>)
    requires OptionDenotes(reg, us, members, key, o)
    ensures OptionIn(o, |reg.nodes|)
  {
    if o.Some? { PlacedIn(reg, Scope(us, [key]), Get(members, key), o.value); }
  }

  lemma {:induction false} EntriesIn(reg: Registry, us: seq<U.Uri>, members: seq<Member>, entries: seq<Entry>,
        ids: seq<Id>)
    requires forall i | 0 <= i < |entries| :: Size(entries[i].doc) < Size(Object(members))
    requires EntriesDenote(reg, us, members, entries, ids)
    ensures Within(ids, |reg.nodes|)
  {
    forall id | id in ids ensures id < |reg.nodes| {
      var i :| 0 <= i < |ids| && ids[i] == id;
      PlacedIn(reg, Scope(us, entries[i].keys), entries[i].doc, ids[i]);
    }
  }

  lemma {:induction false} LogicIn(reg: Registry, us: seq<U.Uri>, members: seq<Member>, keys: seq<string>,
        logic: seq<Logic>)
    requires LogicDenotes(reg, us, members, keys, logic)
    ensures Within(LogicIds(logic), |reg.nodes|)
  {
    forall id | id in LogicIds(logic) ensures id < |reg.nodes| {
      LogicIdsFrom(logic, id);
      var l :| 0 <= l < |logic| && (if logic[l].Not? then logic[l].subschema == id else id in logic[l].subschemas);
      OneLogicIn(reg, us, members, keys[l], logic[l]);
    }
  }

  lemma {:induction false} OneLogicIn(reg: Registry, us: seq<U.Uri>, members: seq<Member>, key: string, logic: Logic)
    requires OneLogicDenotes(reg, us, members, key, logic)
    ensures logic.Not? ==> logic.subschema < |reg.nodes|
    ensures logic.Combine? ==> Within(logic.subschemas, |reg.nodes|)
  {
    if logic.Not? {
      PlacedIn(reg, Scope(us, ["not"]), Get(members, key), logic.subschema);
    } else {
      assert Size(Opt(members, key).value) < Size(Object(members));
      EntriesIn(reg, us, members, Numbered(Get(members, key), key), logic.subschemas);
    }
  }

  lemma {:induction false} PropertiesIn(reg: Registry, us: seq<U.Uri>, members: seq<Member>, key: string,
        prefix: seq<string>,
        ps: seq<Property>)
    requires PropertiesDenote(reg, us, members, key, prefix, ps)
    ensures Within(PropertyIds(ps), |reg.nodes|)
  {
    forall id | id in PropertyIds(ps) ensures id < |reg.nodes| {
      PropertyIdsFrom(ps, id);
      var i :| 0 <= i < |ps| && ps[i].schema == id;
      var d := Get(members, key);
      PlacedIn(reg, Scope(us, prefix + [Keys(d)[i]]), Values(d)[i], ps[i].schema);
    }
  }

  lemma {:induction false} DependenciesIn(reg: Registry, us: seq<U.Uri>, members: seq<Member>, ds: seq<Dependency>)
    requires DependenciesDenote(reg, us, members, ds)
    ensures Within(DependencyIds(ds), |reg.nodes|)
  {
    forall id | id in DependencyIds(ds) ensures id < |reg.nodes| {
      DependencyIdsFrom(ds, id);
      var i :| 0 <= i < |ds| && ds[i].requirement == Schema(id);
      var d := Get(members, "dependencies");
      assert RequirementDenotes(reg, us, members, Keys(d)[i], Values(d)[i], ds[i].requirement);
      PlacedIn(reg, Scope(us, ["dependencies", Keys(d)[i]]), Values(d)[i], id);
    }
  }

  lemma {:induction false} ObjectIn(reg: Registry, us: seq<U.Uri>, members: seq<Member>, inEffect: bool, v: ObjectRules)
    requires ObjectDenotes(reg, us, members, inEffect, v)
    ensures Within(ObjectIds(v), |reg.nodes|) && Within(DependencyIds(v.dependencies), |reg.nodes|)
  {
    if inEffect {
      PropertiesIn(reg, us, members, "properties", ["properties"], v.properties);
      PropertiesIn(reg, us, members, "patternProperties", [], v.patternProperties);
      DependenciesIn(reg, us, members, v.dependencies);
      OptionDenotesIn(reg, us, members, "additionalProperties", v.additionalProperties);
      OptionDenotesIn(reg, us, members, "propertyNames", v.propertyNames);
    }
  }

  lemma {:induction false} ArrayIn(reg: Registry, us: seq<U.Uri>, members: seq<Member>, inEffect: bool, v: ArrayRules)
    requires ArrayDenotes(reg, us, members, inEffect, v)
    ensures Within(ArrayIds(v), |reg.nodes|)
  {
    if inEffect {
      ItemsIn(reg, us, members, v);
      OptionDenotesIn(reg, us, members, "contains", v.contains);
    }
  }

  lemma {:induction false} ItemsIn(reg: Registry, us: seq<U.Uri>, members: seq<Member>, v: ArrayRules)
    requires ItemsDenote(reg, us, members, v)
    ensures Within(v.items, |reg.nodes|) && OptionIn(v.itemsSchema, |reg.nodes|)
    ensures OptionIn(v.additionalItems, |reg.nodes|)
  {
    match Opt(members, "items")
    case Some(Array(_)) =>
      EntriesIn(reg, us, members, Numbered(Get(members, "items"), "items"), v.items);
      OptionDenotesIn(reg, us, members, "additionalItems", v.additionalItems);
    case Some(Object(_)) => OptionDenotesIn(reg, us, members, "items", v.itemsSchema);
    case Some(Boolean(_)) => OptionDenotesIn(reg, us, members, "items", v.itemsSchema);
    case _ =>
  }

  lemma {:induction false} ObjectNames(reg: Registry, us: seq<U.Uri>, members: seq<Member>, inEffect: bool,
        v: ObjectRules)
    requires ObjectDenotes(reg, us, members, inEffect, v) && WellFormed(Object(members))
    ensures DistinctNames(v.properties)
  {
    if inEffect && Has(members, "properties") {
      var d := Get(members, "properties");
      forall i, h | 0 <= i < h < |v.properties| ensures v.properties[i].name != v.properties[h].name {
        KeysDistinct(d, i, h);
      }
    }
  }

  lemma {:induction false} TableIn(reg: Registry, us: seq<U.Uri>, members: seq<Member>, types: seq<string>,
        table: TypeTable)
    requires TableDenotes(reg, us, members, types, table) && WellFormed(Object(members))
    ensures table.objectType.Some? ==>
      Within(ObjectIds(table.objectType.value), |reg.nodes|)
        && Within(DependencyIds(table.objectType.value.dependencies), |reg.nodes|)
      && DistinctNames(table.objectType.value.properties)
    ensures table.arrayType.Some? ==> Within(ArrayIds(table.arrayType.value), |reg.nodes|)
  {
    TableParts(reg, us, members, types, table);
    if table.objectType.Some? {
      ObjectIn(reg, us, members, multiset(types)["object"] < 2, table.objectType.value);
      ObjectNames(reg, us, members, multiset(types)["object"] < 2, table.objectType.value);
    }
    if table.arrayType.Some? {
      ArrayIn(reg, us, members, multiset(types)["array"] < 2, table.arrayType.value);
    }
  }

  lemma SameIn(node: Node, bound: nat)
    requires node.TypeSchema? && Within(LogicIds(node.logic), bound)
    requires OptionIn(node.ifSchema, bound) && OptionIn(node.thenSchema, bound) && OptionIn(node.elseSchema, bound)
    requires node.table.objectType.Some? ==> Within(DependencyIds(node.table.objectType.value.dependencies), bound)
    ensures Within(SameInstanceIds(node), bound)
  {
  }

  /** A node that denotes a document refers to existing nodes only. */
  lemma {:induction false} TypeClosed(reg: Registry, us: seq<U.Uri>, members: seq<Member>, node: Node)
    requires node.TypeSchema? && TypeDenotes(reg, us, members, node) && WellFormed(Object(members))
    ensures NodeClosed(node, |reg.nodes|)
  {
    LogicIn(reg, us, members, LogicListed(members, LOGIC_KEYS), node.logic);
    TableIn(reg, us, members, TypesListed(members), node.table);
    IfIn(reg, us, members, node.ifSchema, node.thenSchema, node.elseSchema);
    SameIn(node, |reg.nodes|);
  }

  lemma {:induction false} IfIn(reg: Registry, us: seq<U.Uri>, members: seq<Member>, i: Option<Id>, t: Option<Id>,
        e: Option<Id>)
    requires IfDenotes(reg, us, members, i, t, e)
    ensures OptionIn(i, |reg.nodes|) && OptionIn(t, |reg.nodes|) && OptionIn(e, |reg.nodes|)
  {
    if i.Some? {
      OptionDenotesIn(reg, us, members, "if", i);
      OptionDenotesIn(reg, us, members, "then", t);
      OptionDenotesIn(reg, us, members, "else", e);
    }
  }

  // ---------------------------------------------------------------- building the table of types

  ghost predicate SameUnder(a: seq<Member>, b: seq<Member>, keys: set<string>) {
    forall key | key in keys :: Opt(a, key) == Opt(b, key)
  }

  ghost predicate NoneUnder(members: seq<Member>, keys: set<string>) {
    forall key | key in keys :: Opt(members, key) == None
  }

  lemma StringFrom(a: seq<Member>, b: seq<Member>, v: StringRules)
    requires SameUnder(a, b, STRING_KEYS) && StringDenotes(a, v)
    ensures StringDenotes(b, v)
  {
  }

  lemma {:induction false} ObjectFrom(reg: Registry, us: seq<U.Uri>, a: seq<Member>, b: seq<Member>, v: ObjectRules)
    requires SameUnder(a, b, OBJECT_KEYS) && ObjectDenotes(reg, us, a, true, v)
    ensures ObjectDenotes(reg, us, b, true, v)
  {
    PropertiesFrom(reg, us, a, b, "properties", ["properties"], v.properties);
    PropertiesFrom(reg, us, a, b, "patternProperties", [], v.patternProperties);
    DependenciesFrom(reg, us, a, b, v.dependencies);
  }

  lemma {:induction false} PropertiesFrom(reg: Registry, us: seq<U.Uri>, a: seq<Member>, b: seq<Member>, key: string,
        prefix: seq<string>,
        ps: seq<Property>)
    requires Opt(a, key) == Opt(b, key) && PropertiesDenote(reg, us, a, key, prefix, ps)
    ensures PropertiesDenote(reg, us, b, key, prefix, ps)
  {
  }

  lemma {:induction false} DependenciesFrom(reg: Registry, us: seq<U.Uri>, a: seq<Member>, b: seq<Member>,
        ds: seq<Dependency>)
    requires Opt(a, "dependencies") == Opt(b, "dependencies") && DependenciesDenote(reg, us, a, ds)
    ensures DependenciesDenote(reg, us, b, ds)
  {
    if Has(a, "dependencies") {
      var j := Get(a, "dependencies");
      assert Get(b, "dependencies") == j;
      forall i | 0 <= i < |ds|
        ensures ds[i].name == Keys(j)[i] && RequirementDenotes(reg, us, b, Keys(j)[i], Values(j)[i], ds[i].requirement)
      {
        assert RequirementDenotes(reg, us, a, Keys(j)[i], Values(j)[i], ds[i].requirement);
      }
    }
  }

  lemma {:induction false} ObjectErased(reg: Registry, us: seq<U.Uri>, members: seq<Member>, v: ObjectRules)
    requires NoneUnder(members, OBJECT_KEYS) && ObjectDenotes(reg, us, members, true, v)
    ensures v == NoObjectRules
  {
    assert PropertiesDenote(reg, us, members, "properties", ["properties"], v.properties);
    assert PropertiesDenote(reg, us, members, "patternProperties", [], v.patternProperties);
  }

  lemma {:induction false} ArrayFrom(reg: Registry, us: seq<U.Uri>, a: seq<Member>, b: seq<Member>, v: ArrayRules)
    requires SameUnder(a, b, ARRAY_KEYS + {"additionalItems"}) && ArrayDenotes(reg, us, a, true, v)
    ensures ArrayDenotes(reg, us, b, true, v)
  {
    assert Opt(a, "items") == Opt(b, "items") && Opt(a, "additionalItems") == Opt(b, "additionalItems");
    ItemsFrom(reg, us, a, b, v);
    assert Opt(a, "contains") == Opt(b, "contains");
    assert Opt(a, "maxItems") == Opt(b, "maxItems") && Opt(a, "minItems") == Opt(b, "minItems")
        && Opt(a, "uniqueItems") == Opt(b, "uniqueItems");
  }

  lemma {:induction false} ItemsFrom(reg: Registry, us: seq<U.Uri>, a: seq<Member>, b: seq<Member>, v: ArrayRules)
    requires Opt(a, "items") == Opt(b, "items") && Opt(a, "additionalItems") == Opt(b, "additionalItems")
    requires ItemsDenote(reg, us, a, v)
    ensures ItemsDenote(reg, us, b, v)
  {
    match Opt(a, "items")
    case Some(Array(list)) =>
      EntriesFrom(reg, us, a, b, Numbered(Get(a, "items"), "items"), v.items);
      assert OptionDenotes(reg, us, b, "additionalItems", v.additionalItems);
    case Some(Object(_)) => assert OptionDenotes(reg, us, b, "items", v.itemsSchema);
    case Some(Boolean(_)) => assert OptionDenotes(reg, us, b, "items", v.itemsSchema);
    case _ =>
  }

  lemma {:induction false} EntriesFrom(reg: Registry, us: seq<U.Uri>, a: seq<Member>, b: seq<Member>,
        entries: seq<Entry>, ids: seq<Id>)
    requires forall i | 0 <= i < |entries| :: Size(entries[i].doc) < Size(Object(a))
    requires forall i | 0 <= i < |entries| :: Size(entries[i].doc) < Size(Object(b))
    requires EntriesDenote(reg, us, a, entries, ids)
    ensures EntriesDenote(reg, us, b, entries, ids)
  {
  }

  lemma {:induction false} ArrayErased(reg: Registry, us: seq<U.Uri>, members: seq<Member>, v: ArrayRules)
    requires NoneUnder(members, ARRAY_KEYS) && ArrayDenotes(reg, us, members, true, v)
    ensures v == NoArrayRules
  {
    assert Opt(members, "items") == None && Opt(members, "contains") == None;
    assert Opt(members, "maxItems") == None && Opt(members, "minItems") == None && Opt(members, "uniqueItems") == None;
    assert ItemsDenote(reg, us, members, v);
    assert OptionDenotes(reg, us, members, "contains", v.contains);
  }

  /** One more validator in the table; a type seen before finds nothing left to read. */
  ghost predicate KindBuilt(reg: Registry, us: seq<U.Uri>, members: seq<Member>, types: seq<string>, name: string,
        table: TypeTable, table': TypeTable) {
    if name == "null" then table' == table.(nullType := true)
    else if name == "boolean" then table' == table.(booleanType := true)
    else if name == "integer"
      then BoundsOf(members, true).Ok? && table' == table.(integerType := Some(BoundsOf(members, true).value))
    else if name == "number"
      then BoundsOf(members, false).Ok? && table' == table.(floatType := Some(BoundsOf(members, false).value))
    else if name == "string" then
      table'.stringType.Some? && table' == table.(stringType := table'.stringType)
      && StringDenotes(if name in types then Without(members, STRING_KEYS) else members, table'.stringType.value)
    else if name == "object" then
      table'.objectType.Some? && table' == table.(objectType := table'.objectType)
      && ObjectDenotes(reg, us, members, name !in types, table'.objectType.value)
    else if name == "array" then
      table'.arrayType.Some? && table' == table.(arrayType := table'.arrayType)
      && ArrayDenotes(reg, us, members, name !in types, table'.arrayType.value)
    else table' == table
  }

  lemma CountStep(types: seq<string>, name: string, t: string)
    ensures t in types + [name] <==> t in types || t == name
    ensures multiset(types + [name])[t] == multiset(types)[t] + (if t == name then 1 else 0)
    ensures t in types <==> multiset(types)[t] > 0
  {
  }

  lemma ScalarStep(reg: Registry, us: seq<U.Uri>, members: seq<Member>, types: seq<string>, name: string,
        table: TypeTable, table': TypeTable)
    requires ScalarsDenote(members, types, table) && KindBuilt(reg, us, members, types, name, table, table')
    ensures ScalarsDenote(members, types + [name], table')
  {
    CountStep(types, name, "null");
    CountStep(types, name, "boolean");
    CountStep(types, name, "integer");
    CountStep(types, name, "number");
  }

  lemma StringStep(reg: Registry, us: seq<U.Uri>, members: seq<Member>, types: seq<string>, name: string,
        table: TypeTable, table': TypeTable)
    requires StringsDenote(members, types, table.stringType) && KindBuilt(reg, us, members, types, name, table, table')
    ensures StringsDenote(members, types + [name], table'.stringType)
  {
    CountStep(types, name, "string");
  }

  lemma {:induction false} ObjectStep(reg: Registry, us: seq<U.Uri>, members: seq<Member>, types: seq<string>,
        name: string,
        table: TypeTable, table': TypeTable)
    requires ObjectsDenote(reg, us, members, types, table.objectType)
    requires KindBuilt(reg, us, members, types, name, table, table')
    ensures ObjectsDenote(reg, us, members, types + [name], table'.objectType)
  {
    CountStep(types, name, "object");
  }

  lemma {:induction false} ArrayStep(reg: Registry, us: seq<U.Uri>, members: seq<Member>, types: seq<string>,
        name: string,
        table: TypeTable, table': TypeTable)
    requires ArraysDenote(reg, us, members, types, table.arrayType)
    requires KindBuilt(reg, us, members, types, name, table, table')
    ensures ArraysDenote(reg, us, members, types + [name], table'.arrayType)
  {
    CountStep(types, name, "array");
  }

  lemma {:induction false} TableStep(reg: Registry, us: seq<U.Uri>, members: seq<Member>, types: seq<string>,
        name: string,
        table: TypeTable, table': TypeTable)
    requires PlainTableDenotes(reg, us, members, types, table)
    requires KindBuilt(reg, us, members, types, name, table, table')
    ensures PlainTableDenotes(reg, us, members, types + [name], table')
  {
    ScalarStep(reg, us, members, types, name, table, table');
    StringStep(reg, us, members, types, name, table, table');
    ObjectStep(reg, us, members, types, name, table, table');
    ArrayStep(reg, us, members, types, name, table, table');
  }

  /** What the validators built so far have erased. */
  lemma {:induction false} ConsumedSoFar(members: seq<Member>, types: seq<string>)
    ensures KindsConsumed(members, types) !! NUMBER_KEYS
    ensures if "string" in types then STRING_KEYS <= KindsConsumed(members, types)
      else STRING_KEYS !! KindsConsumed(members, types)
    ensures if "object" in types then OBJECT_KEYS <= KindsConsumed(members, types)
      else OBJECT_KEYS !! KindsConsumed(members, types)
    ensures if "array" in types then ARRAY_KEYS <= KindsConsumed(members, types)
            else ARRAY_KEYS !! KindsConsumed(members, types) && "additionalItems" !in KindsConsumed(members, types)
  {
    if types != [] {
      var front, last := types[..|types| - 1], types[|types| - 1];
      ConsumedSoFar(members, front);
      assert types == front + [last];
      KeywordsApart();
    }
  }

  lemma KeywordsApart()
    ensures STRING_KEYS !! NUMBER_KEYS && STRING_KEYS !! OBJECT_KEYS && STRING_KEYS !! ARRAY_KEYS
    ensures NUMBER_KEYS !! OBJECT_KEYS && NUMBER_KEYS !! ARRAY_KEYS && OBJECT_KEYS !! ARRAY_KEYS
    ensures "additionalItems" !in STRING_KEYS + NUMBER_KEYS + OBJECT_KEYS
  {
  }

  lemma {:induction false} WithoutSame(members: seq<Member>, erased: set<string>, keys: set<string>)
    ensures erased !! keys ==> SameUnder(Without(members, erased), members, keys)
    ensures keys <= erased ==> NoneUnder(Without(members, erased), keys)
  {
    forall key | key in keys
      ensures Opt(Without(members, erased), key) == if key in erased then None else Opt(members, key)
    {
      OptWithout(members, erased, key);
    }
  }

  /** What a validator built from the members left so far says about all of them. */
  lemma {:induction false} KindFrom(reg: Registry, us: seq<U.Uri>, members: seq<Member>, left: seq<Member>,
        types: seq<string>,
        name: string, table: TypeTable, table': TypeTable)
    requires left == Without(members, KindsConsumed(members, types))
    requires KindBuilt(reg, us, left, [], name, table, table')
    ensures KindBuilt(reg, us, members, types, name, table, table')
  {
    var erased := KindsConsumed(members, types);
    ConsumedSoFar(members, types);
    if name == "integer" || name == "number" {
      BoundsFrom(members, erased, name == "integer");
    } else if name == "string" {
      StringKindFrom(members, erased, name in types, table'.stringType.value);
    } else if name == "object" {
      ObjectKindFrom(reg, us, members, erased, name in types, table'.objectType.value);
    } else if name == "array" {
      ArrayKindFrom(reg, us, members, erased, name in types, table'.arrayType.value);
    }
  }

  lemma {:induction false} BoundsFrom(members: seq<Member>, erased: set<string>, integral: bool)
    requires erased !! NUMBER_KEYS
    ensures BoundsOf(Without(members, erased), integral) == BoundsOf(members, integral)
  {
    OptWithout(members, erased, "maximum");
    OptWithout(members, erased, "minimum");
    OptWithout(members, erased, "exclusiveMaximum");
    OptWithout(members, erased, "exclusiveMinimum");
    OptWithout(members, erased, "multipleOf");
  }

  lemma {:induction false} StringKindFrom(members: seq<Member>, erased: set<string>, again: bool, v: StringRules)
    requires StringDenotes(Without(members, erased), v)
    requires if again then STRING_KEYS <= erased else STRING_KEYS !! erased
    ensures StringDenotes(if again then Without(members, STRING_KEYS) else members, v)
  {
    WithoutSame(members, erased, STRING_KEYS);
    WithoutSame(members, STRING_KEYS, STRING_KEYS);
    StringFrom(Without(members, erased), if again then Without(members, STRING_KEYS) else members, v);
  }

  lemma ObjectKindFrom(reg: Registry, us: seq<U.Uri>, members: seq<Member>, erased: set<string>, again: bool,
        v: ObjectRules)
    requires ObjectDenotes(reg, us, Without(members, erased), true, v)
    requires if again then OBJECT_KEYS <= erased else OBJECT_KEYS !! erased
    ensures ObjectDenotes(reg, us, members, !again, v)
  {
    WithoutSame(members, erased, OBJECT_KEYS);
    if again { ObjectErased(reg, us, Without(members, erased), v); }
    else { ObjectFrom(reg, us, Without(members, erased), members, v); }
  }

  lemma ArrayKindFrom(reg: Registry, us: seq<U.Uri>, members: seq<Member>, erased: set<string>, again: bool,
        v: ArrayRules)
    requires ArrayDenotes(reg, us, Without(members, erased), true, v)
    requires if again then ARRAY_KEYS <= erased else ARRAY_KEYS !! erased && "additionalItems" !in erased
    ensures ArrayDenotes(reg, us, members, !again, v)
  {
    if again {
      WithoutSame(members, erased, ARRAY_KEYS);
      ArrayErased(reg, us, Without(members, erased), v);
    } else {
      WithoutSame(members, erased, ARRAY_KEYS + {"additionalItems"});
      ArrayFrom(reg, us, Without(members, erased), members, v);
    }
  }

  /** The members left after one more validator. */
  lemma {:induction false} KindsStep(members: seq<Member>, types: seq<string>, i: nat)
    requires i < |types|
    ensures Without(Without(members, KindsConsumed(members, types[..i])), KindConsumed(members, types[i]))
            == Without(members, KindsConsumed(members, types[..i + 1]))
  {
    assert types[..i + 1][..i] == types[..i];
    WithoutTwice(members, KindsConsumed(members, types[..i]), KindConsumed(members, types[i]));
  }

  /** Integers fall back on the number validator, unsigned numbers on the integer validator. */
  function WithFallbacks(table: TypeTable): TypeTable {
    var integers := if table.floatType.Some? && table.integerType.None? then table.floatType else table.integerType;
    table.(integerType := integers, unsignedType := integers)
  }

  lemma {:induction false} FallbacksDenote(reg: Registry, us: seq<U.Uri>, members: seq<Member>, types: seq<string>,
        table: TypeTable)
    requires PlainTableDenotes(reg, us, members, types, table)
    ensures TableDenotes(reg, us, members, types, WithFallbacks(table))
  {
    var t := WithFallbacks(table);
    var p := PlainTable(types, t);
    assert ScalarsDenote(members, types, table);
    assert ScalarsDenote(members, types, p);
    assert PlainTableDenotes(reg, us, members, types, p);
  }

  // ---------------------------------------------------------------- forgetting a keyword

  /** Erases a top-level key of the unknown keywords. */
  function Forget(unknown: Json, key: string): Json {
    match unknown
    case Object(members) => Object(Without(members, {key}))
    case _ => unknown
  }

  lemma {:induction false} ForgetKeeps(unknown: Json, key: string)
    requires WellFormed(unknown)
    ensures WellFormed(Forget(unknown, key)) && Texts(Forget(unknown, key)) <= Texts(unknown)
  {
    if unknown.Object? {
      WithoutWellFormed(unknown.members, {key});
      WithoutTexts(unknown.members, {key});
    }
  }

  /** A forgotten keyword is gone. */
  lemma ForgetErases(unknown: Json, key: string)
    ensures !At(Forget(unknown, key), [key]).Found? || unknown.Array?
  {
    if unknown.Object? { OptWithout(unknown.members, {key}, key); }
  }

  lemma {:induction false} ForgetElsewhere(unknown: Json, key: string, q: Pointer)
    requires q != [] && q[0] != key
    ensures At(Forget(unknown, key), q) == At(unknown, q)
  {
    if unknown.Object? { OptWithout(unknown.members, {key}, q[0]); }
  }

  /** `$id` only ever adds a URI. */
  lemma FinalScopeKeeps(scope: seq<U.Uri>, doc: Json)
    ensures scope <= FinalScope(scope, doc)
  {
  }

  // ---------------------------------------------------------------- lists of logic keywords

  lemma {:induction false} LogicListedSnoc(members: seq<Member>, keys: seq<string>, key: string)
    ensures LogicListed(members, keys + [key]) == LogicListed(members, keys) + (if Has(members, key) then [key] else [])
  {
    if keys == [] {
      assert [] + [key] == [key] && [key][1..] == [];
    } else {
      assert (keys + [key])[1..] == keys[1..] + [key];
      LogicListedSnoc(members, keys[1..], key);
    }
  }

  lemma {:induction false} LogicMore(reg: Registry, us: seq<U.Uri>, members: seq<Member>, keys: seq<string>,
        logic: seq<Logic>,
        key: string, l: Logic)
    requires LogicDenotes(reg, us, members, keys, logic) && OneLogicDenotes(reg, us, members, key, l)
    ensures LogicDenotes(reg, us, members, keys + [key], logic + [l])
  {
  }

  lemma EntriesFine(members: seq<Member>, key: string)
    requires Has(members, key) && WellFormed(Object(members))
    ensures WellFormed(Get(members, key)) && Texts(Get(members, key)) <= Texts(Object(members))
    ensures forall i | 0 <= i < |Values(Get(members, key))| ::
      WellFormed(Values(Get(members, key))[i]) && Texts(Values(Get(members, key))[i]) <= Texts(Object(members))
    ensures Size(Get(members, key)) < Size(Object(members))
  {
    assert Size(Opt(members, key).value) < Size(Object(members));
    OptTexts(members, key);
    ValuesWellFormed(Get(members, key));
    ValuesTexts(Get(members, key));
  }
}
