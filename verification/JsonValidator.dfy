/** The validator as its callers see it: a root schema is set, instances are validated against
    it, and what comes back is the meaning of the schema document. */

module JsonValidator {
  import opened Wrappers
  import opened Json
  import opened SchemaGraph
  import opened Documents
  import opened Registry
  import opened Denotation
  import opened Library
  import opened Evaluation
  import opened Meaning
  import opened DocumentMeaning
  import opened Handlers
  import opened Compiler
  import opened CompiledMeaning
  import V = Validator
  import U = Uri

  // ---------------------------------------------------------------- what a call reports

  /** `root_schema::validate` against the schema stored under a URI. */
  function RootRun(reg: Registry, root: Option<Id>, k: Checks, p: Pointer, j: Json, initial: U.Uri): Outcome
    requires Consistent(reg) && WellFounded(reg.nodes)
  {
    var file := File(reg.files, U.Location(initial));
    if root.None? then Fail(p, String(""), NoRootSchema)
    else if U.Location(initial) !in reg.files then Fail(p, String(""), NoSuchFile(U.Location(initial)))
    else if U.Fragment(initial) !in file.schemas then
      Fail(p, String(""), NoSuchSchema(U.Location(initial) + " # " + U.Fragment(initial)))
    else
      ConsistentGraph(reg);
      assert FileOk(reg, U.Location(initial));
      Run(reg.nodes, k, file.schemas[U.Fragment(initial)], p, j)
  }

  lemma ConsistentGraph(reg: Registry)
    requires Consistent(reg)
    ensures Closed(reg.nodes)
  {
    forall n | 0 <= n < |reg.nodes|
      ensures Within(SameInstanceIds(reg.nodes[n]), |reg.nodes|) && Within(DescendingIds(reg.nodes[n]), |reg.nodes|)
    {
      assert EntryOk(reg, n);
    }
  }

  // ---------------------------------------------------------------- what it means

  /** A schema stored under a URI admits what its document says. */
  lemma {:induction false} StoredVerdict(reg: Registry, root: Option<Id>, k: Checks, p: Pointer, j: Json,
        initial: U.Uri,
        scope: seq<U.Uri>, doc: Json, n: Id)
    requires Ready(reg) && SourcesOk(reg) && root.Some? && Stored(reg, KeyOf(initial), n)
    requires Denotes(reg, scope, doc, n)
    ensures RootRun(reg, root, k, p, j, initial).errors == [] <==> Admits(reg.sources, k, scope, doc, j)
  {
    ReadyGraph(reg);
    Verdict(reg.nodes, k, n, p, j);
    AdmitsMeaning(reg, k, scope, doc, n, j);
  }

  /** No report exactly when the instance satisfies the root document, its references meaning the
      documents found under their URIs. */
  lemma RootVerdict(reg: Registry, root: Option<Id>, k: Checks, p: Pointer, j: Json, doc: Json)
    requires Ready(reg) && SourcesOk(reg) && root.Some? && LoadedAs(reg, U.Empty, doc)
    ensures RootRun(reg, root, k, p, j, U.Empty).errors == [] <==> Admits(reg.sources, k, [U.Empty], doc, j)
  {
    var n :| LoadedWith(reg, U.Empty, doc, n);
    assert Denotes(reg, [U.Empty], doc, n);
    StoredVerdict(reg, root, k, p, j, U.Empty, [U.Empty], doc, n);
  }

  /** A `$ref` to a sub-schema, at any depth, of a document that was compiled means that sub-schema:
      whatever says of each URI what the document there says, says it of this one. */
  lemma {:induction false} ReferenceMeaning(reg: Registry, k: Checks, refs: Oracle, us: seq<U.Uri>,
        members: seq<Member>, j: Json,
        seed: Seed, scope: seq<U.Uri>, sub: Json)
    requires SeedPlaced(reg, seed) && Under(seed, scope, sub) && Interprets(reg.sources, k, refs)
    requires RefUri(us, members).Ok? && Registered(KeyOf(RefUri(us, members).value), scope, sub)
    ensures RefSat(refs, us, members, j) <==> DocSat(refs, k, scope, sub, j)
  {
    var key := KeyOf(RefUri(us, members).value);
    PartFound(reg, seed, key, scope, sub);
    assert refs(key, j) <==> DocSat(refs, k, reg.sources[key].scope, reg.sources[key].doc, j);
  }

  /** Once everything is loaded, every URI that can be referred to stands for a sub-schema of the
      root document, of a fetched document, or of a keyword that a reference asked for. */
  lemma EveryReferenceFound(reg: Registry, doc: Json, n: Id)
    requires Ready(reg) && SourcesOk(reg) && Accounted(reg, doc) && n in reg.handed
    ensures reg.handed[n] in reg.sources
    ensures var source := reg.sources[reg.handed[n]];
      && Under(source.seed, source.scope, source.doc) && SeedPlaced(reg, source.seed)
      && Registered(reg.handed[n], source.scope, source.doc)
      && (source.seed.origin.Root? ==> source.seed == RootSeed(doc))
  {
    NothingWaiting(reg);
    var key, s := reg.handed[n], reg.nodes[n].target.value;
    assert SourceOk(reg, key, s, reg.sources[key]);
  }

  // ---------------------------------------------------------------- the object

  class JsonValidator {
    const root: RootSchema

    constructor (root: RootSchema)
      ensures this.root == root
    {
      this.root := root;
    }

    /** `validate` with a handler of the caller's: the patch comes back unless it throws. */
    method ValidateWith(k: Checks, j: Json, e: ErrorHandler, initial: U.Uri) returns (patch: JsonPatch, thrown: bool)
      requires root.Valid() && WellFounded(root.nodes) && e.Valid()
      modifies e
      ensures fresh(patch)
      ensures Did(e, patch, old(e.trace), [], RootRun(root.View(), root.root, k, [], j, initial), thrown)
    {
      patch := new JsonPatch();
      var location, fragment := U.Location(initial), U.Fragment(initial);
      ConsistentGraph(root.View());
      if root.root.None? {
        thrown := V.ErrorIf(true, [], String(""), NoRootSchema, e, patch);
      } else if location !in root.files {
        thrown := V.ErrorIf(true, [], String(""), NoSuchFile(location), e, patch);
      } else if fragment !in root.files[location].schemas {
        thrown := V.ErrorIf(true, [], String(""), NoSuchSchema(location + " # " + fragment), e, patch);
      } else {
        assert FileOk(root.View(), location);
        thrown := V.Validate(root.nodes, k, root.files[location].schemas[fragment], [], j, patch, e);
      }
    }

    /** The same with a handler of the given kind, and what it has seen afterwards. */
    method ValidateUnder(kind: HandlerKind, k: Checks, j: Json, initial: U.Uri)
      returns (first: Option<Report>, log: seq<Report>, patch: seq<Addition>, thrown: bool)
      requires root.Valid() && WellFounded(root.nodes)
      ensures var o := RootRun(root.View(), root.root, k, [], j, initial);
        && thrown == (kind.Throwing? && o.errors != [])
        && (!kind.Recording? ==> first == if o.errors == [] then None else Some(o.errors[0]))
        && (kind.Recording? ==> log == o.errors) && (!thrown ==> patch == o.patch)
    {
      ghost var o := RootRun(root.View(), root.root, k, [], j, initial);
      var e := new ErrorHandler(kind);
      var p;
      p, thrown := ValidateWith(k, j, e, initial);
      assert [] + o.errors == o.errors && [] + o.patch == o.patch;
      first, log, patch := e.first, e.log, p.ops;
    }

    /** One instance under three handlers: the throwing one stops the validation exactly when the
        others have something to show, and with the very same first report; without a report all
        three get the same patch. */
    method CompareHandlers(k: Checks, j: Json, initial: U.Uri)
      returns (thrown: Option<Report>, first: Option<Report>, log: seq<Report>, patches: seq<seq<Addition>>)
      requires root.Valid() && WellFounded(root.nodes)
      ensures thrown == first == if log == [] then None else Some(log[0])
      ensures log == RootRun(root.View(), root.root, k, [], j, initial).errors
      ensures |patches| == 3 && patches[1] == patches[2] && (thrown.None? ==> patches[0] == patches[1])
    {
      var a, _, p, stopped := ValidateUnder(Throwing, k, j, initial);
      var b, _, q, _ := ValidateUnder(FirstError, k, j, initial);
      var _, c, r, _ := ValidateUnder(Recording, k, j, initial);
      thrown, first, log, patches := if stopped then a else None, b, c, [p, q, r];
    }

    /** `validate` with the throwing handler: the default patch, or the first report. Once a
        root schema has been set, an instance is accepted exactly when the document admits it. */
    method Validate(k: Checks, j: Json) returns (r: Result<seq<Addition>, Report>)
      requires root.Valid() && WellFounded(root.nodes)
      ensures var o := RootRun(root.View(), root.root, k, [], j, U.Empty);
        r == if o.errors == [] then Ok(o.patch) else Err(o.errors[0])
      ensures root.Settled() ==> Ready(root.View())
      ensures forall doc | root.Settled() && root.root.Some? && LoadedAs(root.View(), U.Empty, doc) ::
        r.Ok? <==> Admits(root.View().sources, k, [U.Empty], doc, j)
    {
      var e := new ErrorHandler(Throwing);
      ghost var o := RootRun(root.View(), root.root, k, [], j, U.Empty);
      var patch, thrown := ValidateWith(k, j, e, U.Empty);
      assert [] + o.patch == o.patch && [] + o.errors == o.errors;
      r := if thrown then Err(e.first.value) else Ok(patch.ops);
      forall doc | root.Settled() && root.root.Some? && LoadedAs(root.View(), U.Empty, doc)
        ensures r.Ok? <==> Admits(root.View().sources, k, [U.Empty], doc, j)
      {
        RootVerdict(root.View(), root.root, k, [], j, doc);
      }
    }
  }
}
