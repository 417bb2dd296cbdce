/** Where sub-schemas stand: the tokens that a sub-schema's URIs get are the path to it in the
    document, so a reference by pointer means what the pointer leads to. */

module Located {
  import opened Wrappers
  import opened Json
  import opened SchemaGraph
  import opened Documents
  import opened Registry
  import opened Denotation
  import opened Library
  import opened DocumentMeaning
  import opened ApplicatorLaws
  import P = Pointers
  import S = Strings
  import U = Uri

  /** Tables of schemas are objects, and lists of schemas are arrays. */
  ghost predicate Ordered(members: seq<Member>) {
    && (forall key | key in {"definitions", "properties", "dependencies"} && Has(members, key) ::
      Get(members, key).Object?)
    && (forall key | key in {"allOf", "anyOf", "oneOf"} && Has(members, key) :: Get(members, key).Array?)
  }

  lemma {:induction false} OneStep(j: Json, p: Pointer, a: string, b: string)
    requires Child(j, a).Found?
    ensures At(j, [a]) == Child(j, a) && At(j, [a, b]) == Child(Child(j, a).json, b)
  {
    var c := Child(j, a).json;
    assert [a][1..] == [] && [a, b][1..] == [b] && [b][1..] == [] && At(c, []) == Found(c);
    assert At(c, [b]) == match Child(c, b) case Found(d) => At(d, []) case other => other;
  }

  lemma {:induction false} OneStands(members: seq<Member>, key: string, keys: seq<string>, sub: Json)
    requires OnePart(members, key, keys, sub)
    ensures At(Object(members), keys) == Found(sub)
  {
    OneStep(Object(members), [], key, key);
  }

  lemma {:induction false} KeyedAt(members: seq<Member>, key: string, keys: seq<string>, sub: Json)
    requires WellFormed(Object(members)) && KeyedPart(members, key, [key], keys, sub) && Get(members, key).Object?
    ensures At(Object(members), keys) == Found(sub)
  {
    var d := Get(members, key);
    var i :| 0 <= i < |Values(d)| && keys == [key] + [Keys(d)[i]] && sub == Values(d)[i];
    P.PartWellFormed(Object(members), [key]);
    OneStep(Object(members), [], key, Keys(d)[i]);
    AtMember(d.members, i);
    assert keys == [key, Keys(d)[i]];
  }

  lemma {:induction false} NumberedAt(members: seq<Member>, key: string, keys: seq<string>, sub: Json)
    requires NumberedPart(members, key, keys, sub) && Get(members, key).Array?
    ensures At(Object(members), keys) == Found(sub)
  {
    var d := Get(members, key);
    var i :| 0 <= i < |Values(d)| && keys == [key, Decimal(i)] && sub == Values(d)[i];
    OneStep(Object(members), [], key, Decimal(i));
    AtItem(d.items, i);
  }

  /** A sub-schema stands in the document at its tokens; without `patternProperties`, which are
      registered without that token. */
  lemma {:induction false} PartStands(members: seq<Member>, keys: seq<string>, sub: Json)
    requires WellFormed(Object(members)) && Ordered(members) && !Has(members, "patternProperties")
    requires Part(members, keys, sub)
    ensures At(Object(members), keys) == Found(sub)
  {
    var g: Group :| Counts(members, g) && InGroup(members, g, keys, sub);
    match g
    case Definitions => KeyedAt(members, "definitions", keys, sub);
    case Logics => LogicStandsAt(members, keys, sub);
    case Ifs => IfStandsAt(members, keys, sub);
    case Objects => ObjectStandsAt(members, keys, sub);
    case Arrays => ArrayStandsAt(members, keys, sub);
  }

  lemma {:induction false} LogicStandsAt(members: seq<Member>, keys: seq<string>, sub: Json)
    requires Ordered(members) && LogicPart(members, keys, sub)
    ensures At(Object(members), keys) == Found(sub)
  {
    if OnePart(members, "not", keys, sub) { OneStands(members, "not", keys, sub); }
    else if NumberedPart(members, "allOf", keys, sub) { NumberedAt(members, "allOf", keys, sub); }
    else if NumberedPart(members, "anyOf", keys, sub) { NumberedAt(members, "anyOf", keys, sub); }
    else { NumberedAt(members, "oneOf", keys, sub); }
  }

  lemma {:induction false} IfStandsAt(members: seq<Member>, keys: seq<string>, sub: Json)
    requires IfPart(members, keys, sub)
    ensures At(Object(members), keys) == Found(sub)
  {
    var key := if OnePart(members, "if", keys, sub) then "if" else if OnePart(members, "then", keys, sub) then "then"
      else "else";
    OneStands(members, key, keys, sub);
  }

  lemma {:induction false} ObjectStandsAt(members: seq<Member>, keys: seq<string>, sub: Json)
    requires WellFormed(Object(members)) && Ordered(members) && !Has(members, "patternProperties")
    requires ObjectPart(members, keys, sub)
    ensures At(Object(members), keys) == Found(sub)
  {
    if KeyedPart(members, "properties", ["properties"], keys, sub) { KeyedAt(members, "properties", keys, sub); }
    else if KeyedPart(members, "dependencies", ["dependencies"], keys, sub) {
      KeyedAt(members, "dependencies", keys, sub);
    } else if OnePart(members, "propertyNames", keys, sub) {
      OneStands(members, "propertyNames", keys, sub);
    } else {
      OneStands(members, "additionalProperties", keys, sub);
    }
  }

  lemma {:induction false} ArrayStandsAt(members: seq<Member>, keys: seq<string>, sub: Json)
    requires ItemsPart(members, keys, sub) || OnePart(members, "contains", keys, sub)
    ensures At(Object(members), keys) == Found(sub)
  {
    if OnePart(members, "contains", keys, sub) { OneStands(members, "contains", keys, sub); }
    else if OnePart(members, "items", keys, sub) { OneStands(members, "items", keys, sub); }
    else if OnePart(members, "additionalItems", keys, sub) { OneStands(members, "additionalItems", keys, sub); }
    else { NumberedAt(members, "items", keys, sub); }
  }

  /** Definitions are sub-schemas always, properties where objects are allowed. */
  lemma PartsStand(members: seq<Member>, key: string, table: seq<Member>, i: nat)
    requires Has(members, key) && Get(members, key) == Object(table) && i < |table|
    requires key == "definitions" ||
      (key == "properties" && !Has(members, "$ref") && "object" in TypesListed(members))
    ensures Part(members, [key, table[i].key], table[i].value)
  {
    var d := Get(members, key);
    assert Keys(d)[i] == table[i].key && Values(d)[i] == table[i].value
        && [key] + [table[i].key] == [key, table[i].key];
    assert KeyedPart(members, key, [key], [key, table[i].key], table[i].value);
    var g := if key == "definitions" then Definitions else Objects;
    assert Counts(members, g) && InGroup(members, g, [key, table[i].key], table[i].value);
  }

  // ---------------------------------------------------------------- at any depth

  /** Every schema of the document is ordered, and its place is its only name. */
  ghost predicate Plain(scope: seq<U.Uri>, doc: Json) {
    forall s, d {:trigger Descends(scope, doc, s, d)} | Descends(scope, doc, s, d) && d.Object? ::
      Ordered(d.members) && !Has(d.members, "$id") && !Has(d.members, "patternProperties")
  }

  lemma PlainInside(scope: seq<U.Uri>, doc: Json, keys: seq<string>, next: Json)
    requires Plain(scope, doc) && doc.Object? && Part(doc.members, keys, next)
    requires IdScope(scope, doc.members) == Ok(scope)
    ensures Plain(Scope(scope, keys), next)
  {
    forall s, d | Descends(Scope(scope, keys), next, s, d) ensures Descends(scope, doc, s, d) {
      DescendsBy(scope, doc, keys, next, s, d);
    }
  }

  /** The scope of a sub-schema at any depth is the pointer that leads to it. */
  lemma {:induction false} DescendantStands(u: U.Uri, doc: Json, scope: seq<U.Uri>, sub: Json) returns (p: Pointer)
    requires WellFormed(doc) && u.identifier == "" && Plain([u], doc) && Descends([u], doc, scope, sub)
    ensures scope == [u.(pointer := u.pointer + p)] && At(doc, p) == Found(sub)
    decreases Size(doc)
  {
    if scope == [u] && sub == doc {
      p := [];
      assert u.pointer + p == u.pointer;
    } else {
      var keys, next, v := StepDown(u, doc, scope, sub);
      var rest := DescendantStands(v, next, scope, sub);
      p := keys + rest;
      PathJoined(u, doc, keys, next, rest, scope, sub);
    }
  }

  lemma {:induction false} PathJoined(u: U.Uri, doc: Json, keys: Pointer, next: Json, rest: Pointer, scope: seq<U.Uri>,
        sub: Json)
    requires At(doc, keys) == Found(next) && At(next, rest) == Found(sub)
    requires scope == [u.(pointer := u.pointer + keys + rest)]
    ensures scope == [u.(pointer := u.pointer + (keys + rest))] && At(doc, keys + rest) == Found(sub)
  {
    P.AtJoin(doc, keys, rest);
    assert u.pointer + keys + rest == u.pointer + (keys + rest);
  }

  lemma {:induction false} StepDown(u: U.Uri, doc: Json, scope: seq<U.Uri>, sub: Json)
      returns (keys: Pointer, next: Json, v: U.Uri)
    requires WellFormed(doc) && u.identifier == "" && Plain([u], doc) && Descends([u], doc, scope, sub)
    requires !(scope == [u] && sub == doc)
    ensures At(doc, keys) == Found(next) && v == u.(pointer := u.pointer + keys) && Size(next) < Size(doc)
    ensures WellFormed(next) && Plain([v], next) && Descends([v], next, scope, sub)
  {
    keys, next := FirstPart(u, doc, scope, sub);
    v := u.(pointer := u.pointer + keys);
    PartSmaller(doc.members, keys, next);
    PartStands(doc.members, keys, next);
    PlainInside([u], doc, keys, next);
    ScopeOne(u, keys);
    P.PartWellFormed(doc, keys);
  }

  lemma ScopeOne(u: U.Uri, keys: Pointer)
    requires u.identifier == ""
    ensures Scope([u], keys) == [u.(pointer := u.pointer + keys)]
  {
    ScopeInside([u], keys);
    ScopeInside([u][1..], keys);
  }

  /** The first step on the way down. */
  lemma {:induction false} FirstPart(u: U.Uri, doc: Json, scope: seq<U.Uri>, sub: Json)
      returns (keys: seq<string>, next: Json)
    requires Plain([u], doc) && Descends([u], doc, scope, sub) && !(scope == [u] && sub == doc)
    ensures doc.Object? && IdScope([u], doc.members) == Ok([u]) && Part(doc.members, keys, next)
    ensures Ordered(doc.members) && !Has(doc.members, "patternProperties")
    ensures Descends(Scope([u], keys), next, scope, sub)
  {
    assert Descends([u], doc, [u], doc);
    keys, next :| Part(doc.members, keys, next)
      && (PartSmaller(doc.members, keys, next);
          Descends(Scope(IdScope([u], doc.members).value, keys), next, scope, sub));
  }

  /** Of the URI with a pointer into the root document is said what the schema says that the pointer
      leads to. */
  lemma PointerMeans(reg: Registry, k: Checks, refs: Oracle, doc: Json, scope: seq<U.Uri>, sub: Json, j: Json)
      returns (p: Pointer)
    requires WellFormed(doc) && Plain([U.Empty], doc) && SeedPlaced(reg, Seed(Root, [U.Empty], doc))
    requires Under(Seed(Root, [U.Empty], doc), scope, sub) && Interprets(reg.sources, k, refs)
    ensures At(doc, p) == Found(sub)
    ensures refs(Key("", S.PointerText(p)), j) <==> DocSat(refs, k, [U.Empty.(pointer := p)], sub, j)
  {
    p := DescendantStands(U.Empty, doc, scope, sub);
    var u := U.Empty.(pointer := p);
    assert U.Empty.pointer + p == p && scope == [u];
    assert Descends([U.Empty], doc, scope, sub);
    if sub.Object? { assert IdScope(scope, sub.members) == Ok(scope); }
    assert FinalScope(scope, sub) == scope && KeyOf(u) == Key("", S.PointerText(p));
    assert Registered(KeyOf(u), scope, sub) by { assert KeyOf(FinalScope(scope, sub)[0]) == KeyOf(u); }
    PartFound(reg, Seed(Root, [U.Empty], doc), KeyOf(u), scope, sub);
    assert refs(KeyOf(u), j) <==> DocSat(refs, k, reg.sources[KeyOf(u)].scope, reg.sources[KeyOf(u)].doc, j);
  }
}
