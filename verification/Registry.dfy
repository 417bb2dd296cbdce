/** The registry of compiled schemas by URI, its invariant, and how it grows. */

module Registry {
  import opened Wrappers
  import opened Json
  import opened SchemaGraph
  import opened Documents
  import U = Uri

  datatype Key = Key(location: string, fragment: string)

  function KeyOf(u: U.Uri): Key { Key(U.Location(u), U.Fragment(u)) }

  datatype SchemaFile = SchemaFile(schemas: map<string, Id>, unresolved: map<string, Id>, unknown: Json)

  const NoFile := SchemaFile(map[], map[], Null)

  /** Where a document that is compiled comes from: it is the root, it was fetched for a location, or
      it was an unknown keyword that a reference asked for. */
  datatype Origin = Root | Fetched(location: string) | Keyword

  /** A document that is compiled for itself, and the URIs in whose scope it is. */
  datatype Seed = Seed(origin: Origin, scope: seq<U.Uri>, doc: Json)

  /** The document a stored schema was compiled from, the URIs it was compiled under, the document
      it is a part of, and how many schemas had been stored before. */
  datatype Source = Source(scope: seq<U.Uri>, doc: Json, seed: Seed, born: nat)

  /** The compiled nodes, the files by location, the URI each reference was handed out for, and the
      document behind each stored schema. */
  datatype Registry = Registry(nodes: Graph, files: map<string, SchemaFile>, handed: map<Id, Key>,
    sources: map<Key, Source>)

  function File(files: map<string, SchemaFile>, location: string): SchemaFile {
    if location in files then files[location] else NoFile
  }

  ghost predicate Stored(reg: Registry, key: Key, n: Id) {
    key.location in reg.files && key.fragment in reg.files[key.location].schemas
    && reg.files[key.location].schemas[key.fragment] == n
  }

  ghost predicate Waiting(reg: Registry, key: Key, n: Id) {
    key.location in reg.files && key.fragment in reg.files[key.location].unresolved
    && reg.files[key.location].unresolved[key.fragment] == n
  }

  /** A reference handed out for a URI still waits there, or targets what is stored there. */
  ghost predicate HandedOk(reg: Registry, n: Id)
    requires n in reg.handed
  {
    && n < |reg.nodes| && reg.nodes[n].Reference?
    && (reg.nodes[n].target.None? ==> Waiting(reg, reg.handed[n], n))
    && (reg.nodes[n].target.Some? ==> Stored(reg, reg.handed[n], reg.nodes[n].target.value))
  }

  ghost predicate FileOk(reg: Registry, location: string)
    requires location in reg.files
  {
    var file := reg.files[location];
    && (forall f | f in file.unresolved :: f !in file.schemas)
    && (forall f | f in file.schemas :: file.schemas[f] < |reg.nodes|)
    && (forall f | f in file.unresolved :: WaitingOk(reg, Key(location, f), file.unresolved[f]))
    && WellFormed(file.unknown)
  }

  ghost predicate WaitingOk(reg: Registry, key: Key, n: Id) {
    n in reg.handed && reg.handed[n] == key && n < |reg.nodes| && reg.nodes[n].Reference? && reg.nodes[n].target.None?
  }

  ghost predicate NodeClosed(node: Node, bound: nat) {
    Within(SameInstanceIds(node), bound) && Within(DescendingIds(node), bound) && ListsEachNameOnce(node)
  }

  /** What every operation on the registry keeps. */
  ghost predicate Consistent(reg: Registry) {
    && (forall l {:trigger FileOk(reg, l)} | l in reg.files :: FileOk(reg, l))
    && (forall n {:trigger HandedOk(reg, n)} | n in reg.handed :: HandedOk(reg, n))
    && (forall n {:trigger EntryOk(reg, n)} | 0 <= n < |reg.nodes| :: EntryOk(reg, n))
  }

  /** A node stays inside the graph, and a reference without a target is known. */
  ghost predicate EntryOk(reg: Registry, n: Id)
    requires n < |reg.nodes|
  {
    && NodeClosed(reg.nodes[n], |reg.nodes|)
    && (reg.nodes[n].Reference? && reg.nodes[n].target.None? ==> n in reg.handed)
  }

  // ---------------------------------------------------------------- growth

  /** Compiled nodes stay as they are, but for references that receive their target. */
  ghost predicate NodeKept(x: Node, y: Node) {
    y == x || (x.Reference? && x.target.None? && y.Reference? && y == x.(target := y.target))
  }

  ghost predicate Grew(a: Registry, b: Registry) {
    && |a.nodes| <= |b.nodes|
    && (forall n {:trigger b.nodes[n]} {:trigger a.nodes[n]} | 0 <= n < |a.nodes| :: NodeKept(a.nodes[n], b.nodes[n]))
    && (forall key, n | Stored(a, key, n) :: Stored(b, key, n))
    && (forall n | n in a.handed :: n in b.handed && b.handed[n] == a.handed[n])
    && a.files.Keys <= b.files.Keys
    && SourcesKept(a, b)
  }

  ghost predicate SourcesKept(a: Registry, b: Registry) {
    && (forall key | key in a.sources :: key in b.sources && b.sources[key] == a.sources[key])
    && |a.sources| <= |b.sources|
  }

  lemma GrewTransitive(a: Registry, b: Registry, c: Registry)
    requires Grew(a, b) && Grew(b, c)
    ensures Grew(a, c)
  {
    forall n | 0 <= n < |a.nodes| ensures NodeKept(a.nodes[n], c.nodes[n]) {
      assert NodeKept(a.nodes[n], b.nodes[n]) && NodeKept(b.nodes[n], c.nodes[n]);
    }
  }

  /** What stands at a place among the unknown keywords. */
  function KeywordAt(reg: Registry, p: Place): Lookup {
    At(File(reg.files, p.location).unknown, p.pointer)
  }

  /** The keywords at these places are what they were. */
  ghost predicate Undisturbed(a: Registry, b: Registry, active: set<Place>) {
    forall p | p in active :: KeywordAt(b, p) == KeywordAt(a, p)
  }

  /** Only schemas and references changed, not the unknown keywords. */
  ghost predicate SameKeywords(a: Registry, b: Registry) {
    forall l :: File(b.files, l).unknown == File(a.files, l).unknown
  }

  lemma SameKeywordsUndisturbed(a: Registry, b: Registry, active: set<Place>)
    requires SameKeywords(a, b)
    ensures Undisturbed(a, b, active)
  {
    forall p | p in active ensures KeywordAt(b, p) == KeywordAt(a, p) {
      assert File(b.files, p.location).unknown == File(a.files, p.location).unknown;
    }
  }

  // ---------------------------------------------------------------- the two primitive steps

  /** A schema object comes into being. */
  function AddNode(reg: Registry, node: Node): Registry {
    reg.(nodes := reg.nodes + [node])
  }

  lemma AddNodeKeeps(reg: Registry, node: Node)
    requires Consistent(reg) && NodeClosed(node, |reg.nodes|)
    requires node.Reference? ==> node.target.Some?
    ensures Consistent(AddNode(reg, node)) && Grew(reg, AddNode(reg, node))
  {
    var r := AddNode(reg, node);
    forall l | l in r.files ensures FileOk(r, l) {
      assert FileOk(reg, l);
      var file := r.files[l];
      forall f | f in file.unresolved ensures WaitingOk(r, Key(l, f), file.unresolved[f]) {
        assert WaitingOk(reg, Key(l, f), file.unresolved[f]);
      }
    }
    forall n | n in r.handed ensures HandedOk(r, n) {
      assert HandedOk(reg, n);
      assert reg.nodes[n].target.Some? ==> Stored(r, r.handed[n], r.nodes[n].target.value);
      assert reg.nodes[n].target.None? ==> Waiting(r, r.handed[n], n);
    }
    forall n | 0 <= n < |r.nodes| ensures EntryOk(r, n) {
      if n < |reg.nodes| { assert EntryOk(reg, n); }
    }
    forall key, n | Stored(reg, key, n) ensures Stored(r, key, n) {}
  }

  /** A reference that nobody has resolved is created and remembered under its URI. */
  function AddReference(reg: Registry, key: Key, id: string): Registry {
    var n := |reg.nodes|;
    var file := File(reg.files, key.location);
    reg.(nodes := reg.nodes + [Reference(id, Null, None)],
         files := reg.files[key.location := file.(unresolved := file.unresolved[key.fragment := n])],
         handed := reg.handed[n := key])
  }

  lemma AddReferenceEffect(reg: Registry, key: Key, id: string)
    requires Consistent(reg)
    requires var file :=
      File(reg.files, key.location); key.fragment !in file.schemas && key.fragment !in file.unresolved
    ensures var r, m := AddReference(reg, key, id), |reg.nodes|;
      && m !in reg.handed
      && WaitingOk(r, key, m) && Waiting(r, key, m)
      && (forall k, n | Stored(reg, k, n) :: Stored(r, k, n))
      && (forall k, n | Waiting(reg, k, n) :: Waiting(r, k, n))
      && (forall k, n | Waiting(r, k, n) :: Waiting(reg, k, n) || (k == key && n == m))
      && (forall n | n in reg.handed :: n in r.handed && r.handed[n] == reg.handed[n])
  {
    HandedInGraph(reg);
  }

  lemma HandedInGraph(reg: Registry)
    requires Consistent(reg)
    ensures forall n | n in reg.handed :: n < |reg.nodes|
  {
    forall n | n in reg.handed ensures n < |reg.nodes| { assert HandedOk(reg, n); }
  }

  lemma AddReferenceKeeps(reg: Registry, key: Key, id: string)
    requires Consistent(reg)
    requires var file :=
      File(reg.files, key.location); key.fragment !in file.schemas && key.fragment !in file.unresolved
    ensures Consistent(AddReference(reg, key, id)) && Grew(reg, AddReference(reg, key, id))
  {
    var r := AddReference(reg, key, id);
    var m := |reg.nodes|;
    AddReferenceEffect(reg, key, id);
    forall l | l in r.files ensures FileOk(r, l) {
      if l in reg.files { assert FileOk(reg, l); }
      var file := r.files[l];
      forall f | f in file.unresolved ensures WaitingOk(r, Key(l, f), file.unresolved[f]) {
        assert Waiting(r, Key(l, f), file.unresolved[f]);
        if Waiting(reg, Key(l, f), file.unresolved[f]) {
          assert WaitingOk(reg, Key(l, f), file.unresolved[f]);
        }
      }
    }
    forall n | n in r.handed ensures HandedOk(r, n) {
      if n != m { assert HandedOk(reg, n); }
    }
    forall n | 0 <= n < |r.nodes| ensures EntryOk(r, n) {
      if n < m { assert EntryOk(reg, n); }
    }
  }

  /** The reference waiting for a URI, if any, gets its target. */
  function Aimed(nodes: Graph, unresolved: map<string, Id>, fragment: string, s: Id): Graph {
    if fragment in unresolved && unresolved[fragment] < |nodes| && nodes[unresolved[fragment]].Reference?
    then nodes[unresolved[fragment] := nodes[unresolved[fragment]].(target := Some(s))]
    else nodes
  }

  function Filled(file: SchemaFile, fragment: string, s: Id): SchemaFile {
    file.(schemas := file.schemas[fragment := s], unresolved := file.unresolved - {fragment})
  }

  /** A schema is stored under a URI, and its document remembered. */
  function Store(reg: Registry, key: Key, s: Id, source: Source): Registry {
    var file := File(reg.files, key.location);
    reg.(nodes := Aimed(reg.nodes, file.unresolved, key.fragment, s),
         files := reg.files[key.location := Filled(file, key.fragment, s)],
         sources := reg.sources[key := source.(born := |reg.sources|)])
  }

  lemma StoreKeeps(reg: Registry, key: Key, s: Id, source: Source)
    requires Consistent(reg) && s < |reg.nodes| && key.fragment !in File(reg.files, key.location).schemas
    requires key !in reg.sources
    ensures var r := Store(reg, key, s, source);
      Consistent(r) && Grew(reg, r) && Stored(r, key, s)
  {
    StoreWaiter(reg, key);
    StoreEffect(reg, key, s, source);
    var r := Store(reg, key, s, source);
    forall l | l in r.files ensures FileOk(r, l) { StoredFileOk(reg, key, s, source, l); }
    forall n | n in r.handed ensures HandedOk(r, n) { StoredHandedOk(reg, key, s, source, n); }
    forall n | 0 <= n < |r.nodes| ensures EntryOk(r, n) { StoredEntryOk(reg, key, s, source, n); }
  }

  lemma StoredHandedOk(reg: Registry, key: Key, s: Id, source: Source, n: Id)
    requires Consistent(reg) && s < |reg.nodes| && key.fragment !in File(reg.files, key.location).schemas
    requires n in reg.handed
    ensures Store(reg, key, s, source).handed == reg.handed && HandedOk(Store(reg, key, s, source), n)
  {
    StoreWaiter(reg, key);
    StoreEffect(reg, key, s, source);
    assert HandedOk(reg, n);
  }

  lemma StoreWaiter(reg: Registry, key: Key)
    requires Consistent(reg)
    ensures var file := File(reg.files, key.location);
      key.fragment in file.unresolved ==> WaitingOk(reg, key, file.unresolved[key.fragment])
  {
    if key.location in reg.files { assert FileOk(reg, key.location); }
  }

  lemma StoredFileOk(reg: Registry, key: Key, s: Id, source: Source, l: string)
    requires Consistent(reg) && s < |reg.nodes| && key.fragment !in File(reg.files, key.location).schemas
    requires l in Store(reg, key, s, source).files
    ensures FileOk(Store(reg, key, s, source), l)
  {
    var r := Store(reg, key, s, source);
    StoredTables(reg, key, s, source, l);
    if l in reg.files { assert FileOk(reg, l); }
    var file := r.files[l];
    forall f | f in file.unresolved ensures WaitingOk(r, Key(l, f), file.unresolved[f]) {
      StoredWaitingOk(reg, key, s, source, l, f);
    }
  }

  /** How storing changes the tables of a file. */
  lemma StoredTables(reg: Registry, key: Key, s: Id, source: Source, l: string)
    requires l in Store(reg, key, s, source).files
    ensures |Store(reg, key, s, source).nodes| == |reg.nodes|
    ensures var before, after := File(reg.files, l), Store(reg, key, s, source).files[l];
      && after.unknown == before.unknown
      && after.schemas == (if l == key.location then before.schemas[key.fragment := s] else before.schemas)
      && after.unresolved == (if l == key.location then before.unresolved - {key.fragment} else before.unresolved)
      && (l !in reg.files ==> l == key.location)
  {
  }

  lemma StoredWaitingOk(reg: Registry, key: Key, s: Id, source: Source, l: string, f: string)
    requires Consistent(reg) && s < |reg.nodes| && key.fragment !in File(reg.files, key.location).schemas
    requires l in Store(reg, key, s, source).files && f in Store(reg, key, s, source).files[l].unresolved
    ensures WaitingOk(Store(reg, key, s, source), Key(l, f), Store(reg, key, s, source).files[l].unresolved[f])
  {
    StoredTables(reg, key, s, source, l);
    assert FileOk(reg, l);
    assert WaitingOk(reg, Key(l, f), reg.files[l].unresolved[f]);
    StoreWaiter(reg, key);
    StoreEffect(reg, key, s, source);
  }

  lemma StoredEntryOk(reg: Registry, key: Key, s: Id, source: Source, n: Id)
    requires Consistent(reg) && s < |reg.nodes| && key.fragment !in File(reg.files, key.location).schemas
    requires n < |reg.nodes|
    ensures |Store(reg, key, s, source).nodes| == |reg.nodes| && EntryOk(Store(reg, key, s, source), n)
  {
    var r := Store(reg, key, s, source);
    StoreWaiter(reg, key);
    StoreEffect(reg, key, s, source);
    assert EntryOk(reg, n);
    if reg.nodes[n].Reference? {
      assert SameInstanceIds(r.nodes[n]) == OptionIds(r.nodes[n].target);
    }
  }

  lemma StoreEffect(reg: Registry, key: Key, s: Id, source: Source)
    requires Consistent(reg) && s < |reg.nodes| && key.fragment !in File(reg.files, key.location).schemas
    requires var file := File(reg.files, key.location);
      key.fragment in file.unresolved ==> WaitingOk(reg, key, file.unresolved[key.fragment])
    ensures var r := Store(reg, key, s, source);
      && Stored(r, key, s)
      && (forall k, n | Stored(reg, k, n) :: Stored(r, k, n))
      && (forall k, n | Waiting(reg, k, n) && k != key :: Waiting(r, k, n))
      && |r.nodes| == |reg.nodes|
      && (forall n {:trigger r.nodes[n]} | 0 <= n < |reg.nodes| ::
        r.nodes[n] == if Waiting(reg, key, n) then reg.nodes[n].(target := Some(s)) else reg.nodes[n])
      && reg.files.Keys <= r.files.Keys
  {
    StoredStays(reg, key, s, source);
  }

  lemma StoredStays(reg: Registry, key: Key, s: Id, source: Source)
    requires key.fragment !in File(reg.files, key.location).schemas
    ensures var r := Store(reg, key, s, source);
      && Stored(r, key, s)
      && (forall k, n | Stored(reg, k, n) :: Stored(r, k, n))
      && (forall k, n | Waiting(reg, k, n) && k != key :: Waiting(r, k, n))
  {
  }

  /** The unknown keywords of a file change. */
  function SetUnknown(reg: Registry, location: string, unknown: Json): Registry {
    reg.(files := reg.files[location := File(reg.files, location).(unknown := unknown)])
  }

  lemma {:induction false} SetUnknownKeeps(reg: Registry, location: string, unknown: Json)
    requires Consistent(reg) && WellFormed(unknown)
    ensures Consistent(SetUnknown(reg, location, unknown)) && Grew(reg, SetUnknown(reg, location, unknown))
  {
    var r := SetUnknown(reg, location, unknown);
    forall k, n | Stored(reg, k, n) ensures Stored(r, k, n) {}
    forall k, n | Waiting(reg, k, n) ensures Waiting(r, k, n) {}
    forall l | l in r.files ensures FileOk(r, l) {
      if l in reg.files { assert FileOk(reg, l); }
      var file := r.files[l];
      forall f | f in file.unresolved ensures WaitingOk(r, Key(l, f), file.unresolved[f]) {
        assert WaitingOk(reg, Key(l, f), file.unresolved[f]);
      }
    }
    forall n | n in r.handed ensures HandedOk(r, n) {
      assert HandedOk(reg, n);
    }
    forall n | 0 <= n < |r.nodes| ensures EntryOk(r, n) {
      assert EntryOk(reg, n);
    }
  }

  /** Every reference in the graph has its target once nothing is waiting. */
  lemma NothingWaiting(reg: Registry)
    requires Consistent(reg) && forall l | l in reg.files :: reg.files[l].unresolved == map[]
    ensures Resolved(reg.nodes)
    ensures forall n | n in reg.handed ::
      n < |reg.nodes| && reg.nodes[n].Reference? && reg.nodes[n].target.Some?
      && Stored(reg, reg.handed[n], reg.nodes[n].target.value)
  {
    forall n | 0 <= n < |reg.nodes| && reg.nodes[n].Reference? ensures reg.nodes[n].target.Some? {
      assert EntryOk(reg, n);
      if n in reg.handed { assert HandedOk(reg, n); }
    }
    forall n | n in reg.handed
      ensures n < |reg.nodes| && reg.nodes[n].Reference? && reg.nodes[n].target.Some?
        && Stored(reg, reg.handed[n], reg.nodes[n].target.value)
    {
      assert HandedOk(reg, n);
    }
  }

  /** A reference handed out for a URI targets what is stored there, whichever came first. */
  lemma ReferenceTargetsStored(reg: Registry, n: Id, s: Id)
    requires Consistent(reg) && n in reg.handed
    ensures n < |reg.nodes| && reg.nodes[n].Reference?
    ensures Stored(reg, reg.handed[n], s) <==> reg.nodes[n].target == Some(s)
  {
    assert HandedOk(reg, n);
    if reg.nodes[n].target.None? { assert FileOk(reg, reg.handed[n].location); }
  }

  /** References handed out for one URI at different times denote one schema. */
  lemma SameUriSameSchema(reg: Registry, m: Id, n: Id)
    requires Consistent(reg) && m in reg.handed && n in reg.handed && reg.handed[m] == reg.handed[n]
    requires m < |reg.nodes| && n < |reg.nodes|
    ensures reg.nodes[m].Reference? && reg.nodes[n].Reference? && reg.nodes[m].target == reg.nodes[n].target
    ensures reg.nodes[m].target.None? ==> m == n
  {
    assert HandedOk(reg, m) && HandedOk(reg, n);
    if reg.nodes[m].target.None? || reg.nodes[n].target.None? {
      assert FileOk(reg, reg.handed[m].location);
    }
  }
}
