/** The theorem that a compiled node admits exactly the instances its document describes, when its
    references mean the documents found under their URIs. */

module CompiledMeaning {
  import opened Wrappers
  import opened Json
  import opened SchemaGraph
  import opened Documents
  import opened Registry
  import opened Denotation
  import opened Library
  import opened Evaluation
  import opened Meaning
  import opened DocumentMeaning
  import U = Uri

  /** A registry after loading: consistent, nothing waiting, no cycle on one instance. */
  ghost predicate Ready(reg: Registry) {
    && Consistent(reg) && WellFounded(reg.nodes)
    && forall l | l in reg.files :: reg.files[l].unresolved == map[]
  }

  lemma ReadyGraph(reg: Registry)
    requires Ready(reg)
    ensures Evaluable(reg.nodes) && PropertiesAreMaps(reg.nodes) && Resolved(reg.nodes)
  {
    NothingWaiting(reg);
    forall n | 0 <= n < |reg.nodes|
      ensures Within(SameInstanceIds(reg.nodes[n]), |reg.nodes|) && Within(DescendingIds(reg.nodes[n]), |reg.nodes|)
      ensures ListsEachNameOnce(reg.nodes[n])
    {
      assert EntryOk(reg, n);
    }
  }

  // ---------------------------------------------------------------- references

  lemma {:induction false} DefaultsAlwaysExist(g: Graph, n: Id)
    requires Evaluable(g) && Resolved(g) && n < |g|
    ensures DefaultValue(g, n).Value?
    decreases Rank(g, n)
  {
    if g[n].Reference? && g[n].defaultValue.Null? {
      assert g[n].target.Some?;
      assert g[n].target.value in SameInstanceIds(g[n]);
      EdgeRank(g, n, g[n].target.value);
      DefaultsAlwaysExist(g, g[n].target.value);
    }
  }

  function StoredAt(reg: Registry, key: Key): Option<Id> {
    var file := File(reg.files, key.location);
    if key.fragment in file.schemas then Some(file.schemas[key.fragment]) else None
  }

  lemma StoredInRange(reg: Registry, key: Key, n: Id)
    requires Consistent(reg) && Stored(reg, key, n)
    ensures n < |reg.nodes| && StoredAt(reg, key) == Some(n)
  {
    assert FileOk(reg, key.location);
  }

  /** Whatever a URI hands out, it says what the schema stored under the URI says. */
  lemma {:induction false} RefersMeaning(reg: Registry, k: Checks, key: Key, n: Id, j: Json)
    requires Ready(reg) && (Stored(reg, key, n) || (n in reg.handed && reg.handed[n] == key))
    ensures Evaluable(reg.nodes) && n < |reg.nodes|
    ensures var s := StoredAt(reg, key);
      && s.Some? && s.value < |reg.nodes| && Stored(reg, key, s.value)
      && Sat(reg.nodes, k, n, j) == Sat(reg.nodes, k, s.value, j)
      && (Stored(reg, key, n) ==> s.value == n)
      && (n in reg.handed && reg.handed[n] == key ==> Rank(reg.nodes, s.value) < Rank(reg.nodes, n))
  {
    ReadyGraph(reg);
    NothingWaiting(reg);
    if n in reg.handed && reg.handed[n] == key {
      StoredInRange(reg, key, reg.nodes[n].target.value);
      NodeParts(reg.nodes, n);
    } else {
      StoredInRange(reg, key, n);
    }
  }

  /** A node and its copy with another default admit the same instances. */
  lemma {:induction false} CopyMeaning(g: Graph, k: Checks, m: Id, n: Id, j: Json)
    requires Evaluable(g) && m < |g| && n < |g| && g[m].TypeSchema? && g[n].TypeSchema?
    requires g[n] == g[m].(defaultValue := g[n].defaultValue)
    ensures Sat(g, k, m, j) == Sat(g, k, n, j) && Rank(g, m) == Rank(g, n)
  {
    var e := SameInstanceEdges(g);
    assert e[m] == SameInstanceIds(g[m]) == SameInstanceIds(g[n]) == e[n];
    assert Rank(g, m) == Rank(g, n);
  }

  lemma {:induction false} OverrideMeaning(g: Graph, k: Checks, m: Id, d: Json, n: Id, j: Json)
    requires Evaluable(g) && m < |g| && n < |g| && Overrides(g, m, d, n)
    ensures Sat(g, k, n, j) == Sat(g, k, m, j) && Rank(g, m) <= Rank(g, n)
  {
    match g[m]
    case BooleanSchema(_) =>
    case TypeSchema(_, _, _, _, _, _, _, _) => CopyMeaning(g, k, m, n, j);
    case Reference(_, _, _) => NodeParts(g, n);
  }

  /** What is said of the URIs is read off the stored schemas. */
  ghost predicate ReadsOff(reg: Registry, k: Checks, refs: Oracle)
    requires Ready(reg)
  {
    ReadyGraph(reg);
    forall key, j {:trigger refs(key, j)} ::
      refs(key, j) <==>
        var s := StoredAt(reg, key);
        s.Some? && s.value < |reg.nodes| && Sat(reg.nodes, k, s.value, j)
  }

  /** The two things that can be said of the URIs; it will turn out that they are the same. */
  ghost predicate Fits(reg: Registry, k: Checks, refs: Oracle) {
    && Ready(reg) && SourcesOk(reg)
    && (Interprets(reg.sources, k, refs) || ReadsOff(reg, k, refs))
  }

  // ---------------------------------------------------------------- keywords without sub-schemas

  lemma NumberMeaning(k: Checks, members: seq<Member>, integral: bool, b: Bounds, x: real)
    requires BoundsOf(members, integral) == Ok(b)
    ensures NumberSat(k, b, x) <==> NumberDocSat(k, members, integral, x)
  {
  }

  lemma StringMeaning(k: Checks, members: seq<Member>, v: StringRules, s: string)
    requires StringDenotes(members, v)
    ensures StringSat(k, v, s) <==> StringDocSat(k, members, s)
  {
    if v.content.Some? {
      assert v.content == Some((v.content.value.0, v.content.value.1));
    }
  }

  // ---------------------------------------------------------------- the theorem

  /** The main theorem: a node that denotes a document admits an instance exactly when the
      document, read keyword by keyword, does. The recursion goes to smaller instances, along the
      graph on one instance, and from a reference to a schema stored before it. */
  lemma {:induction false} CompiledMeaning(reg: Registry, k: Checks, refs: Oracle, uris: seq<U.Uri>, doc: Json, n: Id,
        j: Json, t: nat)
    requires Fits(reg, k, refs) && Denotes(reg, uris, doc, n) && Grounded(reg, n, uris, doc, t)
    ensures Evaluable(reg.nodes)
    ensures Sat(reg.nodes, k, n, j) <==> DocSat(refs, k, uris, doc, j)
    decreases Size(j), NodeRank(reg, n), t, 10
  {
    ReadyGraph(reg);
    match doc
    case Boolean(_) =>
    case Object(members) =>
      var us := IdScope(uris, members).value;
      if Has(members, "$ref") {
        RefMeaning(reg, k, refs, us, members, n, j, t);
      } else {
        KeywordsMeaning(reg, k, refs, us, members, n, j);
      }
  }

  /** A part of a document: what it says of a smaller instance, or of the same one lower in the graph. */
  lemma {:induction false} SubMeaning(reg: Registry, k: Checks, refs: Oracle, scope: seq<U.Uri>, doc: Json, n: Id,
        size: nat, r: nat, j: Json)
    requires Fits(reg, k, refs) && Placed(reg, scope, doc, n)
    requires Size(j) < size || (Size(j) == size && NodeRank(reg, n) < r)
    ensures Evaluable(reg.nodes) && n < |reg.nodes|
    ensures Sat(reg.nodes, k, n, j) <==> DocSat(refs, k, scope, doc, j)
    decreases size, r, 0, 0
  {
    GroundedNow(reg, n, scope, doc);
    CompiledMeaning(reg, k, refs, scope, doc, n, j, |reg.sources|);
  }

  ghost function NodeRank(reg: Registry, n: Id): nat {
    if Evaluable(reg.nodes) && n < |reg.nodes| then Rank(reg.nodes, n) else 0
  }

  lemma {:induction false} RefMeaning(reg: Registry, k: Checks, refs: Oracle, us: seq<U.Uri>, members: seq<Member>,
        n: Id, j: Json, t: nat)
    requires Fits(reg, k, refs) && n < |reg.nodes| && RefDenotes(reg, us, members, n, t)
    ensures Evaluable(reg.nodes)
    ensures Sat(reg.nodes, k, n, j) <==> RefSat(refs, us, members, j)
    decreases Size(j), NodeRank(reg, n), t, 9
  {
    ReadyGraph(reg);
    var key := KeyOf(RefUri(us, members).value);
    if Has(members, "default") {
      var d := Get(members, "default");
      var m: Id :| m < |reg.nodes| && RefersTo(reg, key, m, t) && Overrides(reg.nodes, m, d, n);
      OverrideMeaning(reg.nodes, k, m, d, n, j);
      HandedMeaning(reg, k, refs, key, m, j, t);
    } else {
      HandedMeaning(reg, k, refs, key, n, j, t);
    }
  }

  /** What was handed out for a URI admits what is said of the URI. */
  lemma {:induction false} HandedMeaning(reg: Registry, k: Checks, refs: Oracle, key: Key, m: Id, j: Json, t: nat)
    requires Fits(reg, k, refs) && m < |reg.nodes| && RefersTo(reg, key, m, t)
    ensures Evaluable(reg.nodes)
    ensures Sat(reg.nodes, k, m, j) <==> refs(key, j)
    decreases Size(j), NodeRank(reg, m), t, 8
  {
    ReadyGraph(reg);
    RefersMeaning(reg, k, key, m, j);
    if Interprets(reg.sources, k, refs) {
      StoredMeaning(reg, k, refs, key, StoredAt(reg, key).value, m, j, t);
    }
  }

  lemma {:induction false} StoredMeaning(reg: Registry, k: Checks, refs: Oracle, key: Key, s: Id, m: Id, j: Json,
        t: nat)
    requires Fits(reg, k, refs) && Interprets(reg.sources, k, refs) && Stored(reg, key, s)
    requires key in reg.sources
    requires NodeRank(reg, s) < NodeRank(reg, m) || (s == m && reg.sources[key].born < t)
    ensures Evaluable(reg.nodes) && s < |reg.nodes|
    ensures Sat(reg.nodes, k, s, j) <==> refs(key, j)
    decreases Size(j), NodeRank(reg, m), t, 7
  {
    var source := reg.sources[key];
    assert SourceOk(reg, key, s, source);
    CompiledMeaning(reg, k, refs, source.scope, source.doc, s, j, source.born);
    assert refs(key, j) <==> DocSat(refs, k, source.scope, source.doc, j);
  }

  lemma {:induction false} KeywordsMeaning(reg: Registry, k: Checks, refs: Oracle, us: seq<U.Uri>,
        members: seq<Member>, n: Id, j: Json)
    requires Fits(reg, k, refs) && n < |reg.nodes|
    requires reg.nodes[n].TypeSchema? && TypeDenotes(reg, us, members, reg.nodes[n])
    ensures Evaluable(reg.nodes)
    ensures Sat(reg.nodes, k, n, j) <==> KeywordsSat(refs, k, us, members, j)
    decreases Size(j), NodeRank(reg, n), 0, 9
  {
    ReadyGraph(reg);
    NodeParts(reg.nodes, n);
    var node, r := reg.nodes[n], Rank(reg.nodes, n);
    KindMeaning(reg, k, refs, us, members, node.table, r, j);
    LogicMeaning(reg, k, refs, us, members, LOGIC_KEYS, node.logic, r, j);
    FourClauses(refs, k, us, members, j);
    IfMeaning(reg, k, refs, us, members, node.ifSchema, node.thenSchema, node.elseSchema, r, j);
  }

  lemma {:induction false} PartMeaning(reg: Registry, k: Checks, refs: Oracle, us: seq<U.Uri>, members: seq<Member>,
        key: string, o: Option<Id>, size: nat, r: nat, j: Json)
    requires Fits(reg, k, refs) && OptionDenotes(reg, us, members, key, o) && o.Some?
    requires Size(j) < size || (Size(j) == size && NodeRank(reg, o.value) < r)
    ensures Evaluable(reg.nodes) && o.value < |reg.nodes|
    ensures Sat(reg.nodes, k, o.value, j) <==> PartSat(refs, k, us, members, key, j)
    decreases size, r, 0, 1
  {
    assert Size(Opt(members, key).value) < Size(Object(members));
    SubMeaning(reg, k, refs, Scope(us, [key]), Get(members, key), o.value, size, r, j);
  }

  lemma {:induction false} IfMeaning(reg: Registry, k: Checks, refs: Oracle, us: seq<U.Uri>, members: seq<Member>,
        i: Option<Id>, t: Option<Id>, e: Option<Id>, r: nat, j: Json)
    requires Fits(reg, k, refs) && Evaluable(reg.nodes) && IfDenotes(reg, us, members, i, t, e)
    requires OptionBelow(reg.nodes, r, i) && OptionBelow(reg.nodes, r, t) && OptionBelow(reg.nodes, r, e)
    ensures IfSat(reg.nodes, k, r, i, t, e, j) <==> IfClause(refs, k, us, members, j)
    decreases Size(j), r, 0, 4
  {
    if i.Some? {
      PartMeaning(reg, k, refs, us, members, "if", i, Size(j), r, j);
      if t.Some? { PartMeaning(reg, k, refs, us, members, "then", t, Size(j), r, j); }
      if e.Some? { PartMeaning(reg, k, refs, us, members, "else", e, Size(j), r, j); }
    }
  }

  // ---- logic

  ghost predicate Clauses(refs: Oracle, k: Checks, us: seq<U.Uri>, members: seq<Member>, keys: seq<string>, j: Json) {
    forall i | 0 <= i < |keys| :: LogicClause(refs, k, us, members, keys[i], j)
  }

  lemma {:induction false} LogicMeaning(reg: Registry, k: Checks, refs: Oracle, us: seq<U.Uri>, members: seq<Member>,
        keys: seq<string>, logic: seq<Logic>, r: nat, j: Json)
    requires Fits(reg, k, refs) && Evaluable(reg.nodes)
    requires LogicDenotes(reg, us, members, LogicListed(members, keys), logic) && AllLogicBelow(reg.nodes, r, logic)
    ensures LogicsSat(reg.nodes, k, r, logic, j) <==> Clauses(refs, k, us, members, keys, j)
    decreases Size(j), r, 0, 5, |keys|
  {
    if keys != [] {
      var listed, rest := LogicListed(members, keys), LogicListed(members, keys[1..]);
      ClausesStep(refs, k, us, members, keys, j);
      if Has(members, keys[0]) {
        assert listed[0] == keys[0] && listed[1..] == rest;
        LogicTail(reg, us, members, listed, logic);
        OneLogicMeaning(reg, k, refs, us, members, keys[0], logic[0], r, j);
        LogicMeaning(reg, k, refs, us, members, keys[1..], logic[1..], r, j);
        LogicsFirst(reg.nodes, k, r, logic, j);
      } else {
        assert [] + rest == rest;
        LogicMeaning(reg, k, refs, us, members, keys[1..], logic, r, j);
      }
    }
  }

  lemma {:induction false} LogicTail(reg: Registry, us: seq<U.Uri>, members: seq<Member>, listed: seq<string>,
        logic: seq<Logic>)
    requires LogicDenotes(reg, us, members, listed, logic) && listed != []
    ensures OneLogicDenotes(reg, us, members, listed[0], logic[0])
    ensures LogicDenotes(reg, us, members, listed[1..], logic[1..])
  {
    var rest, tail := listed[1..], logic[1..];
    forall i | 0 <= i < |rest| ensures OneLogicDenotes(reg, us, members, rest[i], tail[i]) {
      assert OneLogicDenotes(reg, us, members, listed[i + 1], logic[i + 1]);
    }
  }

  lemma {:induction false} FourClauses(refs: Oracle, k: Checks, us: seq<U.Uri>, members: seq<Member>, j: Json)
    ensures Clauses(refs, k, us, members, LOGIC_KEYS, j) <==>
      && LogicClause(refs, k, us, members, "not", j) && LogicClause(refs, k, us, members, "allOf", j)
      && LogicClause(refs, k, us, members, "anyOf", j) && LogicClause(refs, k, us, members, "oneOf", j)
  {
    ClausesStep(refs, k, us, members, LOGIC_KEYS, j);
    ClausesStep(refs, k, us, members, ["allOf", "anyOf", "oneOf"], j);
    ClausesStep(refs, k, us, members, ["anyOf", "oneOf"], j);
    ClausesStep(refs, k, us, members, ["oneOf"], j);
    assert LOGIC_KEYS[1..] == ["allOf", "anyOf", "oneOf"] && ["allOf", "anyOf", "oneOf"][1..] == ["anyOf", "oneOf"];
    assert ["anyOf", "oneOf"][1..] == ["oneOf"] && ["oneOf"][1..] == [];
  }

  lemma {:induction false} ClausesStep(refs: Oracle, k: Checks, us: seq<U.Uri>, members: seq<Member>, keys: seq<string>,
        j: Json)
    requires keys != []
    ensures Clauses(refs, k, us, members, keys, j) <==>
      LogicClause(refs, k, us, members, keys[0], j) && Clauses(refs, k, us, members, keys[1..], j)
  {
    var rest := keys[1..];
    assert forall i | 0 < i < |keys| :: keys[i] == rest[i - 1];
    assert forall i | 0 <= i < |rest| :: rest[i] == keys[i + 1];
  }

  lemma {:induction false} OneLogicMeaning(reg: Registry, k: Checks, refs: Oracle, us: seq<U.Uri>,
        members: seq<Member>, key: string, logic: Logic, r: nat, j: Json)
    requires Fits(reg, k, refs) && Evaluable(reg.nodes) && OneLogicDenotes(reg, us, members, key, logic)
    requires LogicBelow(reg.nodes, r, logic)
    ensures LogicSat(reg.nodes, k, r, logic, j) <==> LogicClause(refs, k, us, members, key, j)
    decreases Size(j), r, 0, 4, 0
  {
    match logic
    case Not(s) => PartMeaning(reg, k, refs, us, members, key, Some(s), Size(j), r, j);
    case Combine(c, ss) =>
      EntriesMeaning(reg, k, refs, us, members, key, ss, r, j);
      assert Hits(reg.nodes, k, r, ss, j) == EntryHits(refs, k, us, members, key, j);
  }

  lemma {:induction false} EntriesMeaning(reg: Registry, k: Checks, refs: Oracle, us: seq<U.Uri>,
        members: seq<Member>, key: string, ss: seq<Id>, r: nat, j: Json)
    requires Fits(reg, k, refs) && Evaluable(reg.nodes) && AllBelow(reg.nodes, r, ss)
    requires Has(members, key) && Size(Get(members, key)) < Size(Object(members))
    requires EntriesDenote(reg, us, members, Numbered(Get(members, key), key), ss)
    ensures |ss| == |Values(Get(members, key))|
    ensures forall i | 0 <= i < |ss| ::
      ss[i] < |reg.nodes| && Sat(reg.nodes, k, ss[i], j) == EntryHits(refs, k, us, members, key, j)[i]
    decreases Size(j), r, 0, 3
  {
    forall i | 0 <= i < |ss|
      ensures ss[i] < |reg.nodes| && Sat(reg.nodes, k, ss[i], j) == EntryHits(refs, k, us, members, key, j)[i]
    {
      EntryMeaning(reg, k, refs, us, members, key, ss, i, Size(j), r, j);
    }
  }

  lemma {:induction false} EntryMeaning(reg: Registry, k: Checks, refs: Oracle, us: seq<U.Uri>, members: seq<Member>,
        key: string, ss: seq<Id>, i: nat, size: nat, r: nat, j: Json)
    requires Fits(reg, k, refs) && Has(members, key) && Size(Get(members, key)) < Size(Object(members))
    requires EntriesDenote(reg, us, members, Numbered(Get(members, key), key), ss) && i < |ss|
    requires Size(j) < size || (Size(j) == size && NodeRank(reg, ss[i]) < r)
    ensures Evaluable(reg.nodes) && ss[i] < |reg.nodes| && |ss| == |Values(Get(members, key))|
    ensures Sat(reg.nodes, k, ss[i], j) == EntrySat(refs, k, us, members, key, i, j)
    decreases size, r, 0, 1
  {
    var entry := Numbered(Get(members, key), key)[i];
    SubMeaning(reg, k, refs, Scope(us, entry.keys), entry.doc, ss[i], size, r, j);
  }

  // ---- kinds

  lemma {:induction false} KindMeaning(reg: Registry, k: Checks, refs: Oracle, us: seq<U.Uri>, members: seq<Member>,
        table: TypeTable, r: nat, j: Json)
    requires Fits(reg, k, refs) && Evaluable(reg.nodes)
    requires TableDenotes(reg, us, members, TypesListed(members), table) && TableOk(reg.nodes, r, table)
    ensures TableSat(reg.nodes, k, r, table, j) <==> KindSat(refs, k, us, members, j)
    decreases Size(j), r, 0, 8
  {
    var types := TypesListed(members);
    TableParts(reg, us, members, types, table);
    match j
    case Array(items) =>
      ArraysMeaning(reg, k, refs, us, members, types, table.arrayType, items);
      ArrayKind(reg.nodes, k, refs, us, members, types, table, r, items);
    case Object(instance) =>
      ObjectsMeaning(reg, k, refs, us, members, types, table.objectType, r, instance);
      ObjectKind(reg.nodes, k, refs, us, members, types, table, r, instance);
    case _ => ScalarMeaning(reg, k, refs, us, members, table, r, j);
  }

  lemma {:induction false} ArraysMeaning(reg: Registry, k: Checks, refs: Oracle, us: seq<U.Uri>,
        members: seq<Member>, types: seq<string>, o: Option<ArrayRules>, items: seq<Json>)
    requires Fits(reg, k, refs) && Evaluable(reg.nodes) && ArraysDenote(reg, us, members, types, o)
    requires o.Some? ==> ArrayWithin(reg.nodes, o.value)
    ensures o.Some? && ArraySat(reg.nodes, k, o.value, items) <==> ArraysSat(refs, k, us, members, types, items)
    decreases Size(Array(items)), 0, 0, 7
  {
    if o.Some? { ArrayMeaning(reg, k, refs, us, members, multiset(types)["array"] < 2, o.value, items); }
  }

  lemma {:induction false} ObjectsMeaning(reg: Registry, k: Checks, refs: Oracle, us: seq<U.Uri>,
        members: seq<Member>, types: seq<string>, o: Option<ObjectRules>, r: nat, instance: seq<Member>)
    requires Fits(reg, k, refs) && Evaluable(reg.nodes) && ObjectsDenote(reg, us, members, types, o)
    requires o.Some? ==> ObjectWithin(reg.nodes, o.value) && DependenciesBelow(reg.nodes, r, o.value.dependencies)
    ensures o.Some? && ObjectSat(reg.nodes, k, r, o.value, instance) <==>
      ObjectsSat(refs, k, us, members, types, instance)
    decreases Size(Object(instance)), r, 0, 7
  {
    if o.Some? { ObjectMeaning(reg, k, refs, us, members, multiset(types)["object"] < 2, o.value, r, instance); }
  }

  lemma {:induction false} ArrayKind(g: Graph, k: Checks, refs: Oracle, us: seq<U.Uri>, members: seq<Member>,
        types: seq<string>, table: TypeTable, r: nat, items: seq<Json>)
    requires Evaluable(g) && TableOk(g, r, table)
    requires table.arrayType.Some? && ArraySat(g, k, table.arrayType.value, items) <==>
      ArraysSat(refs, k, us, members, types, items)
    ensures TableSat(g, k, r, table, Array(items)) <==> TypedSat(refs, k, us, members, types, Array(items))
  {
    TableOfArray(g, k, table, r, items);
    KindOfArray(refs, k, us, members, types, items);
  }

  lemma {:induction false} TableOfArray(g: Graph, k: Checks, table: TypeTable, r: nat, items: seq<Json>)
    requires Evaluable(g) && TableOk(g, r, table)
    ensures TableSat(g, k, r, table, Array(items)) <==>
      table.arrayType.Some? && ArraySat(g, k, table.arrayType.value, items)
  {
  }

  lemma {:induction false} KindOfArray(refs: Oracle, k: Checks, us: seq<U.Uri>, members: seq<Member>,
        types: seq<string>, items: seq<Json>)
    ensures TypedSat(refs, k, us, members, types, Array(items)) <==>
      ArraysSat(refs, k, us, members, types, items)
  {
  }

  lemma {:induction false} ObjectKind(g: Graph, k: Checks, refs: Oracle, us: seq<U.Uri>, members: seq<Member>,
        types: seq<string>, table: TypeTable, r: nat, instance: seq<Member>)
    requires Evaluable(g) && TableOk(g, r, table)
    requires table.objectType.Some? && ObjectSat(g, k, r, table.objectType.value, instance) <==>
      ObjectsSat(refs, k, us, members, types, instance)
    ensures TableSat(g, k, r, table, Object(instance)) <==> TypedSat(refs, k, us, members, types, Object(instance))
  {
    TableOfObject(g, k, table, r, instance);
    KindOfObject(refs, k, us, members, types, instance);
  }

  lemma {:induction false} TableOfObject(g: Graph, k: Checks, table: TypeTable, r: nat, instance: seq<Member>)
    requires Evaluable(g) && TableOk(g, r, table)
    ensures TableSat(g, k, r, table, Object(instance)) <==>
      table.objectType.Some? && ObjectSat(g, k, r, table.objectType.value, instance)
  {
  }

  lemma {:induction false} KindOfObject(refs: Oracle, k: Checks, us: seq<U.Uri>, members: seq<Member>,
        types: seq<string>, instance: seq<Member>)
    ensures TypedSat(refs, k, us, members, types, Object(instance)) <==>
      ObjectsSat(refs, k, us, members, types, instance)
  {
  }

  lemma {:induction false} ScalarMeaning(reg: Registry, k: Checks, refs: Oracle, us: seq<U.Uri>, members: seq<Member>,
        table: TypeTable,
        r: nat, j: Json)
    requires Evaluable(reg.nodes) && TableOk(reg.nodes, r, table) && !j.Array? && !j.Object?
    requires var types := TypesListed(members);
      && ScalarsDenote(members, types, PlainTable(types, table)) && StringsDenote(members, types, table.stringType)
      && ("integer" !in types ==> table.integerType == table.floatType) && table.unsignedType == table.integerType
    ensures TableSat(reg.nodes, k, r, table, j) <==> KindSat(refs, k, us, members, j)
  {
    var types := TypesListed(members);
    match j
    case Integer(x) => IntegerMeaning(k, members, types, table, x as real);
    case Unsigned(x) => IntegerMeaning(k, members, types, table, x as real);
    case Float(x) => if table.floatType.Some? { NumberMeaning(k, members, false, table.floatType.value, x); }
    case String(s) =>
      if table.stringType.Some? {
        StringMeaning(k, InEffect(members, types, "string", STRING_KEYS), table.stringType.value, s);
      }
    case _ =>
  }

  /** The part of a table that concerns integers. */
  ghost predicate IntegersDenote(members: seq<Member>, types: seq<string>, table: TypeTable) {
    && (if "integer" in types then table.integerType.Some? && BoundsOf(members, true) == Ok(table.integerType.value)
        else table.integerType == table.floatType)
    && (if "number" in types then table.floatType.Some? && BoundsOf(members, false) == Ok(table.floatType.value)
        else table.floatType.None?)
  }

  lemma IntegerMeaning(k: Checks, members: seq<Member>, types: seq<string>, table: TypeTable, x: real)
    requires IntegersDenote(members, types, table)
    ensures table.integerType.Some? && NumberSat(k, table.integerType.value, x) <==> IntegerSat(k, members, types, x)
  {
    if table.integerType.Some? {
      NumberMeaning(k, members, "integer" in types, table.integerType.value, x);
    }
  }

  // ---- objects

  lemma {:induction false} ObjectMeaning(reg: Registry, k: Checks, refs: Oracle, us: seq<U.Uri>, members: seq<Member>,
        inEffect: bool, v: ObjectRules, r: nat, instance: seq<Member>)
    requires Fits(reg, k, refs) && Evaluable(reg.nodes) && ObjectDenotes(reg, us, members, inEffect, v)
    requires ObjectWithin(reg.nodes, v) && DependenciesBelow(reg.nodes, r, v.dependencies)
    ensures ObjectSat(reg.nodes, k, r, v, instance) <==> (inEffect ==> ObjectDocSat(refs, k, us, members, instance))
    decreases Size(Object(instance)), r, 0, 5
  {
    ReadyDefaults(reg, v, instance);
    if inEffect {
      MembersMeaning(reg, k, refs, us, members, v, instance);
      DependenciesMeaning(reg, k, refs, us, members, v.dependencies, r, instance);
    } else {
      assert MembersSat(reg.nodes, k, v, instance, 0);
    }
  }

  lemma ReadyDefaults(reg: Registry, v: ObjectRules, instance: seq<Member>)
    requires Ready(reg) && Evaluable(reg.nodes) && ObjectWithin(reg.nodes, v)
    ensures DefaultsExist(reg.nodes, v.properties, instance)
  {
    ReadyGraph(reg);
    forall i | 0 <= i < |v.properties| ensures DefaultValue(reg.nodes, v.properties[i].schema).Value? {
      DefaultsAlwaysExist(reg.nodes, v.properties[i].schema);
    }
  }

  lemma {:induction false} MembersMeaning(reg: Registry, k: Checks, refs: Oracle, us: seq<U.Uri>,
        members: seq<Member>, v: ObjectRules, instance: seq<Member>)
    requires Fits(reg, k, refs) && Evaluable(reg.nodes) && ObjectDenotes(reg, us, members, true, v)
    requires ObjectWithin(reg.nodes, v)
    ensures MembersSat(reg.nodes, k, v, instance, 0) <==>
      forall i | 0 <= i < |instance| :: MemberDocSat(refs, k, us, members, instance[i])
    decreases Size(Object(instance)), 0, 0, 4
  {
    forall i | 0 <= i < |instance|
      ensures MemberSat(reg.nodes, k, v, instance, instance[i]) <==> MemberDocSat(refs, k, us, members, instance[i])
    {
      MemberMeaning(reg, k, refs, us, members, v, instance, instance[i]);
    }
  }

  lemma {:induction false} MemberMeaning(reg: Registry, k: Checks, refs: Oracle, us: seq<U.Uri>, members: seq<Member>,
        v: ObjectRules, instance: seq<Member>, m: Member)
    requires Fits(reg, k, refs) && Evaluable(reg.nodes) && ObjectDenotes(reg, us, members, true, v)
    requires ObjectWithin(reg.nodes, v)
    requires Size(m.value) + 1 < Size(Object(instance))
    ensures MemberSat(reg.nodes, k, v, instance, m) <==> MemberDocSat(refs, k, us, members, m)
    decreases Size(Object(instance)), 0, 0, 3
  {
    var size := Size(Object(instance));
    if v.propertyNames.Some? {
      PartMeaning(reg, k, refs, us, members, "propertyNames", v.propertyNames, size, 0, String(m.key));
    }
    PropertiesMeaning(reg, k, refs, us, members, "properties", ["properties"], v.properties, size, m.value);
    PropertiesMeaning(reg, k, refs, us, members, "patternProperties", [], v.patternProperties, size, m.value);
    if v.additionalProperties.Some? {
      PartMeaning(reg, k, refs, us, members, "additionalProperties", v.additionalProperties, size, 0, m.value);
    }
    ClaimedMentioned(k, v, members, m.key);
  }

  lemma ClaimedMentioned(k: Checks, v: ObjectRules, members: seq<Member>, name: string)
    requires |v.properties| == |KeysUnder(members, "properties")|
    requires |v.patternProperties| == |KeysUnder(members, "patternProperties")|
    requires forall i | 0 <= i < |v.properties| :: v.properties[i].name == KeysUnder(members, "properties")[i]
    requires forall i | 0 <= i < |v.patternProperties| ::
      v.patternProperties[i].name == KeysUnder(members, "patternProperties")[i]
    ensures Claimed(k, v, name) <==> Mentioned(k, members, name)
  {
  }

  lemma {:induction false} PropertiesMeaning(reg: Registry, k: Checks, refs: Oracle, us: seq<U.Uri>,
        members: seq<Member>, key: string, prefix: seq<string>, ps: seq<Property>, size: nat, j: Json)
    requires Fits(reg, k, refs) && PropertiesDenote(reg, us, members, key, prefix, ps) && Size(j) < size
    ensures Evaluable(reg.nodes) && |ps| == |KeysUnder(members, key)|
    ensures forall i | 0 <= i < |ps| :: ps[i].name == KeysUnder(members, key)[i] && ps[i].schema < |reg.nodes|
    ensures forall i | 0 <= i < |ps| ::
      Sat(reg.nodes, k, ps[i].schema, j) == KeyedSat(refs, k, us, members, key, prefix, i, j)
    decreases size, 0, 0, 1
  {
    ReadyGraph(reg);
    if Has(members, key) {
      assert Size(Opt(members, key).value) < Size(Object(members));
      var d := Get(members, key);
      forall i | 0 <= i < |ps|
        ensures ps[i].schema < |reg.nodes|
          && Sat(reg.nodes, k, ps[i].schema, j) == KeyedSat(refs, k, us, members, key, prefix, i, j)
      {
        SubMeaning(reg, k, refs, Scope(us, prefix + [Keys(d)[i]]), Values(d)[i], ps[i].schema, size, 0, j);
      }
    }
  }

  lemma {:induction false} DependenciesMeaning(reg: Registry, k: Checks, refs: Oracle, us: seq<U.Uri>,
        members: seq<Member>, ds: seq<Dependency>, r: nat, instance: seq<Member>)
    requires Fits(reg, k, refs) && Evaluable(reg.nodes) && DependenciesDenote(reg, us, members, ds)
    requires DependenciesBelow(reg.nodes, r, ds)
    ensures (forall i | 0 <= i < |ds| && Has(instance, ds[i].name) ::
      RequirementSat(reg.nodes, k, r, ds[i].requirement, instance))
      <==> DependenciesDocSat(refs, k, us, members, instance)
    decreases Size(Object(instance)), r, 0, 3
  {
    if Has(members, "dependencies") {
      forall i | 0 <= i < |ds|
        ensures RequirementSat(reg.nodes, k, r, ds[i].requirement, instance) <==>
          DependencyDocSat(refs, k, us, members, i, instance)
      {
        RequirementMeaning(reg, k, refs, us, members, ds, i, r, instance);
      }
    }
  }

  lemma {:induction false} RequirementMeaning(reg: Registry, k: Checks, refs: Oracle, us: seq<U.Uri>,
        members: seq<Member>, ds: seq<Dependency>, i: nat, r: nat, instance: seq<Member>)
    requires Fits(reg, k, refs) && Evaluable(reg.nodes) && DependenciesDenote(reg, us, members, ds)
    requires Has(members, "dependencies") && i < |ds| && DependenciesBelow(reg.nodes, r, ds)
    ensures i < |KeysUnder(members, "dependencies")|
    ensures RequirementSat(reg.nodes, k, r, ds[i].requirement, instance) <==>
      DependencyDocSat(refs, k, us, members, i, instance)
    decreases Size(Object(instance)), r, 0, 2
  {
    assert Size(Opt(members, "dependencies").value) < Size(Object(members));
    var d := Get(members, "dependencies");
    assert RequirementDenotes(reg, us, members, Keys(d)[i], Values(d)[i], ds[i].requirement);
    if ds[i].requirement.Schema? {
      assert ["dependencies"] + [Keys(d)[i]] == ["dependencies", Keys(d)[i]];
      SubMeaning(reg, k, refs, Scope(us, ["dependencies", Keys(d)[i]]), Values(d)[i], ds[i].requirement.schema,
        Size(Object(instance)), r, Object(instance));
    }
  }

  // ---- arrays

  lemma {:induction false} ArrayMeaning(reg: Registry, k: Checks, refs: Oracle, us: seq<U.Uri>, members: seq<Member>,
        inEffect: bool, v: ArrayRules, items: seq<Json>)
    requires Fits(reg, k, refs) && Evaluable(reg.nodes) && ArrayDenotes(reg, us, members, inEffect, v)
    requires ArrayWithin(reg.nodes, v)
    ensures ArraySat(reg.nodes, k, v, items) <==> (inEffect ==> ArrayDocSat(refs, k, us, members, items))
    decreases Size(Array(items)), 0, 0, 4
  {
    if inEffect {
      if v.contains.Some? { ContainsMeaning(reg, k, refs, us, members, v.contains, items); }
      ItemsMeaning(reg, k, refs, us, members, v, items);
    } else {
      assert TupleSat(reg.nodes, k, v, items, 0);
    }
  }

  lemma {:induction false} ContainsMeaning(reg: Registry, k: Checks, refs: Oracle, us: seq<U.Uri>,
        members: seq<Member>, o: Option<Id>, items: seq<Json>)
    requires Fits(reg, k, refs) && Evaluable(reg.nodes) && OptionDenotes(reg, us, members, "contains", o) && o.Some?
    ensures o.value < |reg.nodes|
    ensures SomeItemSat(reg.nodes, k, o.value, items, 0) <==>
      exists i | 0 <= i < |items| :: PartSat(refs, k, us, members, "contains", items[i])
    decreases Size(Array(items)), 0, 0, 3
  {
    assert Denotes(reg, Scope(us, ["contains"]), Get(members, "contains"), o.value);
    forall i | 0 <= i < |items|
      ensures Sat(reg.nodes, k, o.value, items[i]) <==> PartSat(refs, k, us, members, "contains", items[i])
    {
      PartMeaning(reg, k, refs, us, members, "contains", o, Size(Array(items)), 0, items[i]);
    }
  }

  lemma {:induction false} ItemsMeaning(reg: Registry, k: Checks, refs: Oracle, us: seq<U.Uri>, members: seq<Member>,
        v: ArrayRules, items: seq<Json>)
    requires Fits(reg, k, refs) && Evaluable(reg.nodes) && ItemsDenote(reg, us, members, v)
    requires ArrayWithin(reg.nodes, v)
    ensures (if v.itemsSchema.Some? then ItemsSat(reg.nodes, k, v.itemsSchema.value, items, 0)
             else TupleSat(reg.nodes, k, v, items, 0))
      <==> forall i | 0 <= i < |items| :: ItemDocSat(refs, k, us, members, i, items[i])
    decreases Size(Array(items)), 0, 0, 3
  {
    forall i | 0 <= i < |items|
      ensures ItemDocSat(refs, k, us, members, i, items[i]) <==>
        var s := if v.itemsSchema.Some? then v.itemsSchema else TupleSchema(v, i);
        s.None? || (s.value < |reg.nodes| && Sat(reg.nodes, k, s.value, items[i]))
    {
      ItemMeaning(reg, k, refs, us, members, v, Size(Array(items)), i, items[i]);
    }
  }

  lemma {:induction false} ItemMeaning(reg: Registry, k: Checks, refs: Oracle, us: seq<U.Uri>, members: seq<Member>,
        v: ArrayRules, size: nat, i: nat, j: Json)
    requires Fits(reg, k, refs) && Evaluable(reg.nodes) && ItemsDenote(reg, us, members, v)
    requires ArrayWithin(reg.nodes, v) && Size(j) < size
    ensures ItemDocSat(refs, k, us, members, i, j) <==>
      var s := if v.itemsSchema.Some? then v.itemsSchema else TupleSchema(v, i);
      s.None? || (s.value < |reg.nodes| && Sat(reg.nodes, k, s.value, j))
    decreases size, 0, 0, 2
  {
    match Opt(members, "items")
    case Some(Array(list)) =>
      if i < |list| {
        assert Size(Opt(members, "items").value) < Size(Object(members));
        EntryMeaning(reg, k, refs, us, members, "items", v.items, i, size, 0, j);
      } else if v.additionalItems.Some? {
        PartMeaning(reg, k, refs, us, members, "additionalItems", v.additionalItems, size, 0, j);
      }
    case Some(Object(_)) => PartMeaning(reg, k, refs, us, members, "items", v.itemsSchema, size, 0, j);
    case Some(Boolean(_)) => PartMeaning(reg, k, refs, us, members, "items", v.itemsSchema, size, 0, j);
    case _ =>
  }

  // ---------------------------------------------------------------- what a library means

  /** What the stored schemas admit. */
  ghost function StoredOracle(reg: Registry, k: Checks): (refs: Oracle)
    requires Ready(reg)
    ensures ReadsOff(reg, k, refs)
  {
    ReadyGraph(reg);
    (key: Key, j: Json) =>
      var s := StoredAt(reg, key);
      s.Some? && s.value < |reg.nodes| && Sat(reg.nodes, k, s.value, j)
  }

  /** The documents of the library leave no choice: what they say of each other's URIs, taken
      together, has a solution, and only one, which is what the stored schemas admit. */
  lemma LibraryMeaning(reg: Registry, k: Checks)
    requires Ready(reg) && SourcesOk(reg)
    ensures Interprets(reg.sources, k, StoredOracle(reg, k))
    ensures forall refs: Oracle, key, j | Interprets(reg.sources, k, refs) && key in reg.sources ::
      refs(key, j) == StoredOracle(reg, k)(key, j)
  {
    var stored := StoredOracle(reg, k);
    forall key, j | key in reg.sources
      ensures stored(key, j) <==> DocSat(stored, k, reg.sources[key].scope, reg.sources[key].doc, j)
    {
      SourceMeaning(reg, k, stored, key, j);
    }
    forall refs: Oracle, key, j | Interprets(reg.sources, k, refs) && key in reg.sources
      ensures refs(key, j) == stored(key, j)
    {
      SourceMeaning(reg, k, refs, key, j);
    }
  }

  lemma {:induction false} SourceMeaning(reg: Registry, k: Checks, refs: Oracle, key: Key, j: Json)
    requires Fits(reg, k, refs) && key in reg.sources
    ensures var source := reg.sources[key];
      StoredOracle(reg, k)(key, j) <==> DocSat(refs, k, source.scope, source.doc, j)
  {
    ReadyGraph(reg);
    var s := StoredAt(reg, key).value;
    assert Stored(reg, key, s);
    StoredInRange(reg, key, s);
    var source := reg.sources[key];
    assert SourceOk(reg, key, s, source);
    CompiledMeaning(reg, k, refs, source.scope, source.doc, s, j, source.born);
    assert ReadsOff(reg, k, StoredOracle(reg, k));
    assert StoredOracle(reg, k)(key, j) <==> Sat(reg.nodes, k, s, j);
  }

  /** A node that denotes a document admits what the document does in the library, whichever of
      the solutions is taken. */
  lemma {:induction false} AdmitsMeaning(reg: Registry, k: Checks, uris: seq<U.Uri>, doc: Json, n: Id, j: Json)
    requires Ready(reg) && SourcesOk(reg) && Denotes(reg, uris, doc, n)
    ensures Evaluable(reg.nodes)
    ensures Sat(reg.nodes, k, n, j) <==> Admits(reg.sources, k, uris, doc, j)
    ensures Admits(reg.sources, k, uris, doc, j) <==>
      exists refs: Oracle :: Interprets(reg.sources, k, refs) && DocSat(refs, k, uris, doc, j)
  {
    LibraryMeaning(reg, k);
    GroundedNow(reg, n, uris, doc);
    forall refs: Oracle | Interprets(reg.sources, k, refs)
      ensures Evaluable(reg.nodes) && (Sat(reg.nodes, k, n, j) <==> DocSat(refs, k, uris, doc, j))
    {
      CompiledMeaning(reg, k, refs, uris, doc, n, j, |reg.sources|);
    }
    CompiledMeaning(reg, k, StoredOracle(reg, k), uris, doc, n, j, |reg.sources|);
  }
}
