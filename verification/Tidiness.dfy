/** A condition on documents under which references and unknown keywords do not get into each
    other's way: it is read off the documents, and what compilation does to the unknown keywords
    keeps what it says about them. */

module Tidiness {
  import opened Wrappers
  import opened Json
  import opened Documents
  import opened Registry
  import opened Denotation
  import opened Library
  import opened CompileSteps
  import S = Strings
  import U = Uri

  /** A keyword that references may ask for: the URI they give it, its document, and a rank that
      falls from each such keyword to those it asks for itself. */
  datatype Expected = Expected(uri: U.Uri, doc: Json, rank: nat)

  /** The keywords that references may ask for, the places at or below which unknown keywords are
      kept, and a bound on the ranks. */
  datatype Plan = Plan(asked: map<Place, Expected>, kept: set<Place>, limit: nat)

  function PlaceOf(uri: U.Uri): Place { Place(U.Location(uri), uri.pointer) }

  function KeyAt(p: Place): Key { Key(p.location, S.PointerText(p.pointer)) }

  ghost predicate Covered(kept: set<Place>, p: Place) {
    exists k | k in kept :: k.location == p.location && k.pointer <= p.pointer
  }

  lemma CoveredOverlaps(kept: set<Place>, p: Place, q: Place)
    requires Covered(kept, p) && Overlap(q, p)
    ensures !Apart(q, kept)
  {
    var k :| k in kept && k.location == p.location && k.pointer <= p.pointer;
    assert Overlap(k, q);
  }

  // ---------------------------------------------------------------- what is asked of a document

  /** A reference has no pointer, or asks for a keyword of lower rank, or asks for a place where no
      unknown keyword comes to stand. */
  ghost predicate AskTidy(plan: Plan, uri: U.Uri, bound: nat) {
    || uri.pointer == []
    || (PlaceOf(uri) in plan.asked && plan.asked[PlaceOf(uri)].uri == uri && plan.asked[PlaceOf(uri)].rank < bound)
    || Apart(PlaceOf(uri), plan.kept)
  }

  /** An unknown keyword is kept at a place that is accounted for, and the keywords that references
      ask for in it, or around it, are the documents expected. */
  ghost predicate KeepTidy(plan: Plan, uri: U.Uri, key: string, value: Json) {
    var p := Place(U.Location(uri), uri.pointer + [key]);
    && uri.identifier == "" && Covered(plan.kept, p)
    && forall q | q in plan.asked && Overlap(q, p) :: KeptAs(plan.asked[q], q, p, uri, value)
  }

  ghost predicate KeptAs(e: Expected, q: Place, p: Place, uri: U.Uri, value: Json)
    requires Overlap(q, p)
  {
    if p.pointer <= q.pointer then
      At(value, q.pointer[|p.pointer|..]) == Found(e.doc) && e.uri == uri.(pointer := q.pointer)
    else At(e.doc, p.pointer[|q.pointer|..]) == Found(value)
  }

  /** No reference asks for anything in the keyword or around it. */
  ghost predicate KeepFree(plan: Plan, uri: U.Uri, key: string) {
    var p := Place(U.Location(uri), uri.pointer + [key]);
    uri.identifier == "" && Covered(plan.kept, p) && forall q | q in plan.asked :: !Overlap(q, p)
  }

  ghost predicate KeepsTidy(plan: Plan, uri: U.Uri, members: seq<Member>) {
    forall i | 0 <= i < |members| :: KeepTidy(plan, uri, members[i].key, members[i].value)
  }

  ghost predicate KeepsFree(plan: Plan, uri: U.Uri, members: seq<Member>) {
    forall key | Has(members, key) :: KeepFree(plan, uri, key)
  }

  /** No reference asks for a keyword at the place of the URI or around it. */
  ghost predicate NoneAround(plan: Plan, uri: U.Uri) {
    forall q | q in plan.asked && q.location == U.Location(uri) :: !(q.pointer <= uri.pointer)
  }

  /** The unknown keywords of a schema under its URIs: when there are several, no reference asks
      for them. */
  ghost predicate LeftTidy(plan: Plan, us: seq<U.Uri>, members: seq<Member>) {
    if |us| == 1 then NoneAround(plan, us[0]) && KeepsTidy(plan, us[0], members)
    else forall i | 0 <= i < |us| :: KeepsFree(plan, us[i], members)
  }

  /** The reference and the unknown keywords of one schema. A keyword that is compiled because a
      reference asked for it has no unknown keywords at any depth. */
  ghost predicate SchemaTidy(plan: Plan, scope: seq<U.Uri>, doc: Json, bound: nat) {
    doc.Object? ==>
      var us, left := FinalScope(scope, doc), Without(doc.members, Consumed(doc.members));
      && (Has(doc.members, "$ref") && RefUri(us, doc.members).Ok? ==>
            AskTidy(plan, RefUri(us, doc.members).value, bound))
      && (left != [] ==> bound == plan.limit && LeftTidy(plan, us, left))
  }

  /** What the schemas of a document may ask for: keywords of any rank, or of lower rank in a
      document that is such a keyword. */
  ghost function BoundOf(plan: Plan, seed: Seed): nat {
    if seed.origin.Keyword? && |seed.scope| == 1 && PlaceOf(seed.scope[0]) in plan.asked
    then plan.asked[PlaceOf(seed.scope[0])].rank else plan.limit
  }

  /** The condition on a document: every schema in it is tidy. */
  ghost predicate SeedTidy(plan: Plan, seed: Seed) {
    forall scope, doc {:trigger SchemaTidy(plan, scope, doc, BoundOf(plan, seed))} | Under(seed, scope, doc) ::
      SchemaTidy(plan, scope, doc, BoundOf(plan, seed))
  }

  ghost predicate ExpectedOk(plan: Plan, p: Place, e: Expected) {
    && p.pointer != [] && e.uri.identifier == "" && PlaceOf(e.uri) == p && e.rank < plan.limit
    && Covered(plan.kept, p) && SeedTidy(plan, Seed(Keyword, [e.uri], e.doc))
  }

  /** The keywords that references may ask for lie apart, are tidy themselves, and none of their
      names is the pointer of another. */
  ghost predicate PlanOk(plan: Plan) {
    && (forall p | p in plan.asked :: ExpectedOk(plan, p, plan.asked[p]))
    && (forall p, q | p in plan.asked && q in plan.asked && p != q :: !Overlap(p, q))
    && (forall p, q | p in plan.asked && q in plan.asked ::
          !Overlap(Place(p.location, [S.PointerText(p.pointer)]), q))
  }

  /** No reference in a keyword that may be asked for leads into the keyword or around it: when one
      does, there is no plan. */
  lemma RefersElsewhere(plan: Plan, p: Place, scope: seq<U.Uri>, sub: Json)
    requires PlanOk(plan) && p in plan.asked && Under(Seed(Keyword, [plan.asked[p].uri], plan.asked[p].doc), scope, sub)
    requires sub.Object? && Has(sub.members, "$ref") && RefUri(FinalScope(scope, sub), sub.members).Ok?
    ensures var u := RefUri(FinalScope(scope, sub), sub.members).value;
      u.pointer != [] ==> !Overlap(PlaceOf(u), p)
  {
    var e := plan.asked[p];
    var seed := Seed(Keyword, [e.uri], e.doc);
    var u := RefUri(FinalScope(scope, sub), sub.members).value;
    assert ExpectedOk(plan, p, e);
    assert SchemaTidy(plan, scope, sub, BoundOf(plan, seed));
    if u.pointer != [] && Overlap(PlaceOf(u), p) { CoveredOverlaps(plan.kept, p, PlaceOf(u)); }
  }

  /** A keyword being compiled is one of those expected. */
  ghost predicate SeedFits(plan: Plan, seed: Seed) {
    seed.origin.Keyword? ==>
      && |seed.scope| == 1 && PlaceOf(seed.scope[0]) in plan.asked
      && var e := plan.asked[PlaceOf(seed.scope[0])]; e.uri == seed.scope[0] && e.doc == seed.doc
  }

  // ---------------------------------------------------------------- what is true of the unknown keywords

  function Seen(files: map<string, SchemaFile>, p: Place): Lookup {
    At(File(files, p.location).unknown, p.pointer)
  }

  ghost predicate FreeAt(files: map<string, SchemaFile>, p: Place) {
    S.PointerText(p.pointer) !in File(files, p.location).schemas
  }

  /** Nothing stands where nothing is accounted for. */
  ghost predicate Sparse(plan: Plan, files: map<string, SchemaFile>) {
    forall p: Place {:trigger Seen(files, p)} | p.pointer != [] && !Seen(files, p).OutOfRange? ::
      !Apart(p, plan.kept)
  }

  /** A keyword that a reference may ask for is a schema already, or it is not there yet, or it is
      the document expected. */
  ghost predicate Expectable(plan: Plan, files: map<string, SchemaFile>) {
    forall q | q in plan.asked && FreeAt(files, q) ::
      Seen(files, q).OutOfRange? || Seen(files, q) == Found(plan.asked[q].doc)
  }

  /** References wait for keywords that may be asked for, or for no unknown keyword. */
  ghost predicate Patient(plan: Plan, files: map<string, SchemaFile>) {
    forall l, f {:trigger f in File(files, l).unresolved} | f in File(files, l).unresolved :: Waitable(plan, Key(l, f))
  }

  ghost predicate Waitable(plan: Plan, key: Key) {
    forall p: Place {:trigger KeyAt(p)} | p.pointer != [] && KeyAt(p) == key :: p in plan.asked || Apart(p, plan.kept)
  }

  ghost predicate Tidy(plan: Plan, files: map<string, SchemaFile>) {
    Sparse(plan, files) && Expectable(plan, files) && Patient(plan, files)
  }

  ghost predicate HeldAt(plan: Plan, files: map<string, SchemaFile>, q: Place)
    requires q in plan.asked
  {
    !FreeAt(files, q) || Seen(files, q) == Found(plan.asked[q].doc)
  }

  /** A keyword that is there stays until it is a schema. */
  ghost predicate Lasting(plan: Plan, a: map<string, SchemaFile>, b: map<string, SchemaFile>) {
    forall q | q in plan.asked && HeldAt(plan, a, q) :: HeldAt(plan, b, q)
  }

  /** The keywords at a place or around it are there. */
  ghost predicate HeldUpTo(plan: Plan, files: map<string, SchemaFile>, uri: U.Uri) {
    forall q | q in plan.asked && q.location == U.Location(uri) && q.pointer <= uri.pointer :: HeldAt(plan, files, q)
  }

  lemma HeldStill(plan: Plan, a: map<string, SchemaFile>, b: map<string, SchemaFile>, uri: U.Uri)
    requires Lasting(plan, a, b) && HeldUpTo(plan, a, uri)
    ensures HeldUpTo(plan, b, uri)
  {
  }

  // ---------------------------------------------------------------- places and their keys

  lemma KeyAtInjective(p: Place, q: Place)
    requires KeyAt(p) == KeyAt(q) && p.pointer != [] && q.pointer != []
    ensures p == q
  {
    S.PointerRoundTrip(p.pointer);
    S.PointerRoundTrip(q.pointer);
  }

  /** What a reference asks for may be waited for. */
  lemma AskWaitable(plan: Plan, uri: U.Uri, bound: nat)
    requires AskTidy(plan, uri, bound) && OneFragment(uri)
    ensures Waitable(plan, KeyOf(uri))
  {
    forall p: Place | p.pointer != [] && KeyAt(p) == KeyOf(uri) ensures p in plan.asked || Apart(p, plan.kept) {
      S.PointerRoundTrip(p.pointer);
      if uri.pointer != [] {
        KeyAtInjective(p, PlaceOf(uri));
      }
    }
  }

  // ---------------------------------------------------------------- looking into a value

  lemma {:induction false} AtInside(j: Json, p: Pointer, q: Pointer)
    requires p <= q && At(j, p).Found?
    ensures At(j, q) == At(At(j, p).json, q[|p|..])
    decreases |p|
  {
    if p == [] {
      assert q[0..] == q;
    } else {
      assert p[0] == q[0] && p[1..] <= q[1..] && q[1..][|p[1..]|..] == q[|p|..];
      AtInside(Child(j, p[0]).json, p[1..], q[1..]);
    }
  }

  /** What stands below a value that is put somewhere. */
  lemma {:induction false} PutPathInside(j: Json, tokens: Pointer, key: string, value: Json, q: Pointer)
    requires PutPath(j, tokens, key, value).Some? && tokens + [key] <= q
    ensures At(PutPath(j, tokens, key, value).value, q) == At(value, q[|tokens| + 1..])
  {
    PutPathFound(j, tokens, key, value);
    AtInside(PutPath(j, tokens, key, value).value, tokens + [key], q);
  }

  lemma {:induction false} PutSame(members: seq<Member>, key: string, value: Json)
    requires SortedKeys(members) && Has(members, key) && Get(members, key) == value
    ensures Put(members, key, value) == members
  {
    var rest := members[1..];
    if members[0].key != key {
      assert members == [members[0]] + rest;
      ReadCons(members[0], rest, key);
      var k := IndexOf(members, key);
      assert StringLess(members[0].key, members[k].key);
      StringLessTrichotomy(members[0].key, key);
      PutSame(rest, key, value);
    }
  }

  /** Putting a value where it stands already changes nothing. */
  lemma {:induction false} PutPathSame(j: Json, tokens: Pointer, key: string, value: Json)
    requires WellFormed(j) && PutPath(j, tokens, key, value).Some? && At(j, tokens + [key]) == Found(value)
    ensures PutPath(j, tokens, key, value) == Some(j)
    decreases |tokens|
  {
    if tokens == [] {
      assert (tokens + [key])[1..] == [];
      PutSame(j.members, key, value);
    } else {
      assert (tokens + [key])[1..] == tokens[1..] + [key];
      PutPathSame(Get(j.members, tokens[0]), tokens[1..], key, value);
      PutSame(j.members, tokens[0], Get(j.members, tokens[0]));
    }
  }

  // ---------------------------------------------------------------- what keeps tidiness

  /** Storing a schema: the keywords stay, and fewer references wait. */
  lemma StoredTidy(plan: Plan, a: map<string, SchemaFile>, b: map<string, SchemaFile>)
    requires Tidy(plan, a)
    requires forall l :: File(b, l).unknown == File(a, l).unknown
    requires forall l :: File(a, l).schemas.Keys <= File(b, l).schemas.Keys
    requires forall l, f | f in File(b, l).unresolved :: f in File(a, l).unresolved || Waitable(plan, Key(l, f))
    ensures Tidy(plan, b) && Lasting(plan, a, b)
  {
    forall p: Place ensures Seen(b, p) == Seen(a, p) {
      assert File(b, p.location).unknown == File(a, p.location).unknown;
    }
    forall p: Place | FreeAt(b, p) ensures FreeAt(a, p) {
      assert File(a, p.location).schemas.Keys <= File(b, p.location).schemas.Keys;
    }
  }

  lemma SameKeywordsLasting(plan: Plan, a: Registry, b: Registry)
    requires Grew(a, b) && SameKeywords(a, b)
    ensures Lasting(plan, a.files, b.files)
  {
    forall q | q in plan.asked && HeldAt(plan, a.files, q) ensures HeldAt(plan, b.files, q) {
      assert File(b.files, q.location).unknown == File(a.files, q.location).unknown;
      if FreeAt(b.files, q) { FreeBefore(a, b, KeyAt(q)); }
    }
  }

  lemma {:induction false} SetSeen(files: map<string, SchemaFile>, location: string, unknown: Json, p: Place)
    ensures var b := files[location := File(files, location).(unknown := unknown)];
      && (p.location == location ==> Seen(b, p) == At(unknown, p.pointer))
      && (p.location != location ==> Seen(b, p) == Seen(files, p))
      && FreeAt(b, p) == FreeAt(files, p)
  {
  }

  /** Every place that can be asked for sees what it saw, or what is expected. */
  ghost predicate SeesWell(plan: Plan, a: map<string, SchemaFile>, b: map<string, SchemaFile>) {
    && (forall p: Place {:trigger FreeAt(b, p)} :: FreeAt(b, p) == FreeAt(a, p))
    && (forall l {:trigger File(b, l)} :: File(b, l).unresolved == File(a, l).unresolved)
    && (forall p: Place {:trigger Seen(b, p)} | p.pointer != [] && !Seen(b, p).OutOfRange? ::
          !Apart(p, plan.kept) || Seen(b, p) == Seen(a, p))
    && (forall q | q in plan.asked && FreeAt(a, q) ::
          Seen(b, q) == Seen(a, q) || Seen(b, q) == Found(plan.asked[q].doc))
  }

  lemma SeesWellTidy(plan: Plan, a: map<string, SchemaFile>, b: map<string, SchemaFile>)
    requires Tidy(plan, a) && SeesWell(plan, a, b)
    ensures Tidy(plan, b) && Lasting(plan, a, b)
  {
    forall q | q in plan.asked && FreeAt(b, q)
      ensures Seen(b, q).OutOfRange? || Seen(b, q) == Found(plan.asked[q].doc)
    {
      assert FreeAt(a, q);
    }
    forall l, f | f in File(b, l).unresolved ensures Waitable(plan, Key(l, f)) {
      assert f in File(a, l).unresolved;
    }
  }

  /** Keeping an unknown keyword: around a keyword that is there already it changes nothing. */
  lemma {:induction false} KeptTidy(plan: Plan, files: map<string, SchemaFile>, uri: U.Uri, key: string, value: Json)
    requires PlanOk(plan) && Tidy(plan, files) && KeepTidy(plan, uri, key, value)
    requires HeldUpTo(plan, files, uri)
    requires WellFormed(File(files, U.Location(uri)).unknown)
    requires PutPath(File(files, U.Location(uri)).unknown, uri.pointer, key, value).Some?
    ensures var location := U.Location(uri);
      var unknown := PutPath(File(files, location).unknown, uri.pointer, key, value).value;
      var b := files[location := File(files, location).(unknown := unknown)];
      Tidy(plan, b) && Lasting(plan, files, b)
  {
    var location, before := U.Location(uri), File(files, U.Location(uri)).unknown;
    var unknown := PutPath(before, uri.pointer, key, value).value;
    var b := files[location := File(files, location).(unknown := unknown)];
    var at := Place(location, uri.pointer + [key]);
    forall p: Place ensures FreeAt(b, p) == FreeAt(files, p) { SetSeen(files, location, unknown, p); }
    forall p: Place | p.pointer != [] && !Seen(b, p).OutOfRange?
      ensures !Apart(p, plan.kept) || Seen(b, p) == Seen(files, p)
    {
      SetSeen(files, location, unknown, p);
      if Overlap(p, at) {
        CoveredOverlaps(plan.kept, at, p);
      } else if p.location == location {
        PutPathElsewhere(before, uri.pointer, key, value, p.pointer);
      }
    }
    forall q | q in plan.asked && FreeAt(files, q)
      ensures Seen(b, q) == Seen(files, q) || Seen(b, q) == Found(plan.asked[q].doc)
    {
      SetSeen(files, location, unknown, q);
      if q.location == location { KeptSeen(plan, files, uri, key, value, q); }
    }
    SeesWellTidy(plan, files, b);
  }

  lemma AroundBelow(q: Pointer, tokens: Pointer, key: string)
    requires q <= tokens + [key] && !(tokens + [key] <= q)
    ensures q <= tokens
  {
    assert |q| <= |tokens|;
    assert (tokens + [key])[..|q|] == tokens[..|q|];
  }

  /** A keyword that was kept is there, and so are those around it. */
  lemma KeptHeld(plan: Plan, a: map<string, SchemaFile>, b: map<string, SchemaFile>, uri: U.Uri, key: string,
        value: Json)
    requires KeepTidy(plan, uri, key, value) && HeldUpTo(plan, a, uri) && Lasting(plan, a, b)
    requires Seen(b, Place(U.Location(uri), uri.pointer + [key])) == Found(value)
    ensures HeldUpTo(plan, b, U.Append(uri, key))
  {
    var p := Place(U.Location(uri), uri.pointer + [key]);
    forall q | q in plan.asked && q.location == p.location && q.pointer <= p.pointer ensures HeldAt(plan, b, q) {
      if p.pointer <= q.pointer {
        assert KeptAs(plan.asked[q], q, p, uri, value) && q == p;
        assert q.pointer[|p.pointer|..] == [];
      } else {
        AroundBelow(q.pointer, uri.pointer, key);
      }
    }
  }

  /** What a place that can be asked for sees after an unknown keyword was kept. */
  lemma {:induction false} KeptSeen(plan: Plan, files: map<string, SchemaFile>, uri: U.Uri, key: string, value: Json,
        q: Place)
    requires PlanOk(plan) && KeepTidy(plan, uri, key, value) && q in plan.asked && FreeAt(files, q)
    requires HeldUpTo(plan, files, uri) && q.location == U.Location(uri)
    requires WellFormed(File(files, U.Location(uri)).unknown)
    requires PutPath(File(files, U.Location(uri)).unknown, uri.pointer, key, value).Some?
    ensures var now := At(PutPath(File(files, q.location).unknown, uri.pointer, key, value).value, q.pointer);
      now == Seen(files, q) || now == Found(plan.asked[q].doc)
  {
    var before := File(files, q.location).unknown;
    var at := Place(q.location, uri.pointer + [key]);
    if !Overlap(q, at) {
      PutPathElsewhere(before, uri.pointer, key, value, q.pointer);
    } else if at.pointer <= q.pointer {
      assert KeptAs(plan.asked[q], q, at, uri, value);
      PutPathInside(before, uri.pointer, key, value, q.pointer);
    } else {
      assert KeptAs(plan.asked[q], q, at, uri, value);
      AroundBelow(q.pointer, uri.pointer, key);
      assert HeldAt(plan, files, q);
      AtInside(before, q.pointer, at.pointer);
      PutPathSame(before, uri.pointer, key, value);
    }
  }

  function ForgottenIn(files: map<string, SchemaFile>, p: Place, left: Json): Json {
    Forget(ReplaceAt(File(files, p.location).unknown, p.pointer, left), S.PointerText(p.pointer))
  }

  function AfterForget(files: map<string, SchemaFile>, p: Place, left: Json): map<string, SchemaFile> {
    files[p.location := File(files, p.location).(unknown := ForgottenIn(files, p, left))]
  }

  /** Forgetting a keyword that has become a schema. */
  lemma ForgottenTidy(plan: Plan, files: map<string, SchemaFile>, p: Place, left: Json)
    requires PlanOk(plan) && Tidy(plan, files) && p in plan.asked && !FreeAt(files, p)
    ensures Tidy(plan, AfterForget(files, p, left)) && Lasting(plan, files, AfterForget(files, p, left))
  {
    ForgottenWaits(files, p, left);
    ForgottenApart(plan, files, p, left);
    ForgottenAsked(plan, files, p, left);
    SeesWellTidy(plan, files, AfterForget(files, p, left));
  }

  lemma ForgottenAt(files: map<string, SchemaFile>, p: Place, left: Json, q: Place)
    ensures FreeAt(AfterForget(files, p, left), q) == FreeAt(files, q)
    ensures Seen(AfterForget(files, p, left), q) ==
      if q.location == p.location then At(ForgottenIn(files, p, left), q.pointer) else Seen(files, q)
  {
    SetSeen(files, p.location, ForgottenIn(files, p, left), q);
  }

  lemma ForgottenWaits(files: map<string, SchemaFile>, p: Place, left: Json)
    ensures var b := AfterForget(files, p, left);
      && (forall q: Place {:trigger FreeAt(b, q)} :: FreeAt(b, q) == FreeAt(files, q))
      && (forall l {:trigger File(b, l)} :: File(b, l).unresolved == File(files, l).unresolved)
  {
    forall q: Place ensures FreeAt(AfterForget(files, p, left), q) == FreeAt(files, q) {
      ForgottenAt(files, p, left, q);
    }
  }

  lemma ForgottenApart(plan: Plan, files: map<string, SchemaFile>, p: Place, left: Json)
    requires PlanOk(plan) && p in plan.asked
    ensures var b := AfterForget(files, p, left);
      forall q: Place {:trigger Seen(b, q)} | q.pointer != [] && !Seen(b, q).OutOfRange? ::
        !Apart(q, plan.kept) || Seen(b, q) == Seen(files, q)
  {
    forall q: Place | q.pointer != [] && !Seen(AfterForget(files, p, left), q).OutOfRange?
      ensures !Apart(q, plan.kept) || Seen(AfterForget(files, p, left), q) == Seen(files, q)
    {
      ForgottenAt(files, p, left, q);
      ForgottenSparse(plan, files, p, left, q);
    }
  }

  lemma ForgottenAsked(plan: Plan, files: map<string, SchemaFile>, p: Place, left: Json)
    requires PlanOk(plan) && p in plan.asked && !FreeAt(files, p)
    ensures var b := AfterForget(files, p, left);
      forall q | q in plan.asked && FreeAt(files, q) :: Seen(b, q) == Seen(files, q)
  {
    forall q | q in plan.asked && FreeAt(files, q)
      ensures Seen(AfterForget(files, p, left), q) == Seen(files, q)
    {
      ForgottenAt(files, p, left, q);
      if q.location == p.location { ForgottenStays(plan, files, p, left, q); }
    }
  }

  lemma ForgottenSparse(plan: Plan, files: map<string, SchemaFile>, p: Place, left: Json, q: Place)
    requires PlanOk(plan) && p in plan.asked && q.pointer != []
    requires q.location == p.location ==> !At(ForgottenIn(files, p, left), q.pointer).OutOfRange?
    ensures q.location == p.location ==>
      !Apart(q, plan.kept) || At(ForgottenIn(files, p, left), q.pointer) == Seen(files, q)
  {
    assert ExpectedOk(plan, p, plan.asked[p]);
    if Overlap(q, p) { CoveredOverlaps(plan.kept, p, q); }
    else if q.location == p.location { ForgottenSeen(files, p, left, q); }
  }

  lemma ForgottenSeen(files: map<string, SchemaFile>, p: Place, left: Json, q: Place)
    requires q.location == p.location && !Overlap(q, p) && q.pointer != []
    ensures var now := At(ForgottenIn(files, p, left), q.pointer); now.OutOfRange? || now == Seen(files, q)
  {
    var unknown, name := File(files, p.location).unknown, S.PointerText(p.pointer);
    var replaced := ReplaceAt(unknown, p.pointer, left);
    ReplaceAtElsewhere(unknown, p.pointer, left, q.pointer);
    if q.pointer[0] != name { ForgetElsewhere(replaced, name, q.pointer); }
    else if replaced.Object? { OptWithout(replaced.members, {name}, name); }
  }

  lemma ForgottenStays(plan: Plan, files: map<string, SchemaFile>, p: Place, left: Json, q: Place)
    requires PlanOk(plan) && p in plan.asked && q in plan.asked && p != q && q.location == p.location
    ensures At(ForgottenIn(files, p, left), q.pointer) == Seen(files, q)
  {
    assert ExpectedOk(plan, q, plan.asked[q]);
    assert !Overlap(p, q) && !Overlap(Place(p.location, [S.PointerText(p.pointer)]), q);
    ForgottenBeside(File(files, p.location).unknown, p.pointer, S.PointerText(p.pointer), left, q.pointer);
  }

  lemma {:induction false} ForgottenBeside(unknown: Json, p: Pointer, name: string, left: Json, q: Pointer)
    requires !(p <= q) && !(q <= p) && !([name] <= q) && q != []
    ensures At(Forget(ReplaceAt(unknown, p, left), name), q) == At(unknown, q)
  {
    ReplaceAtElsewhere(unknown, p, left, q);
    assert q[0] != name by { assert q == [q[0]] + q[1..]; }
    ForgetElsewhere(ReplaceAt(unknown, p, left), name, q);
  }

  // ---------------------------------------------------------------- entering the members of a keyword

  /** Under the first of several URIs, or the only one, the unknown keywords are tidy; for the other
      URIs it does not matter what has become of them. */
  lemma LeftKeeps(plan: Plan, us: seq<U.Uri>, i: nat, members: seq<Member>, left: seq<Member>)
    requires LeftTidy(plan, us, members) && i < |us| && NoNewKeys(members, left) && left != []
    requires i == 0 ==> left == members
    ensures KeepsTidy(plan, us[i], left) && NoneAround(plan, us[i])
  {
    if |us| != 1 {
      forall h | 0 <= h < |left| ensures KeepTidy(plan, us[i], left[h].key, left[h].value) {
        HasAt(left, h);
        assert KeepFree(plan, us[i], left[h].key);
      }
      HasAt(left, 0);
      assert KeepFree(plan, us[i], left[0].key);
    }
  }

  /** A keyword in a keyword. */
  lemma KeepTidyInside(plan: Plan, uri: U.Uri, key: string, members: seq<Member>, i: nat)
    requires KeepTidy(plan, uri, key, Object(members)) && i < |members| && WellFormed(Object(members))
    ensures KeepTidy(plan, U.Append(uri, key), members[i].key, members[i].value)
  {
    var p := Place(U.Location(uri), uri.pointer + [key]);
    var uri', m := U.Append(uri, key), members[i];
    var p' := Place(U.Location(uri), p.pointer + [m.key]);
    assert p.pointer <= p'.pointer && Covered(plan.kept, p');
    forall q | q in plan.asked && Overlap(q, p') ensures KeptAs(plan.asked[q], q, p', uri', m.value) {
      assert Overlap(q, p);
      assert KeptAs(plan.asked[q], q, p, uri, Object(members));
      KeptAsInside(plan.asked[q], q, p, uri, members, i);
    }
  }

  lemma KeptAsInside(e: Expected, q: Place, p: Place, uri: U.Uri, members: seq<Member>, i: nat)
    requires i < |members| && WellFormed(Object(members)) && uri.identifier == "" && p.pointer != []
    requires Overlap(q, p) && KeptAs(e, q, p, uri, Object(members))
    requires Overlap(q, Place(p.location, p.pointer + [members[i].key]))
    ensures KeptAs(e, q, Place(p.location, p.pointer + [members[i].key]), uri.(pointer := p.pointer), members[i].value)
  {
    var key, value := members[i].key, members[i].value;
    var inner := p.pointer + [key];
    MemberAt(members, i);
    if inner <= q.pointer {
      var rest := q.pointer[|p.pointer|..];
      assert rest == [key] + q.pointer[|inner|..];
      assert rest[1..] == q.pointer[|inner|..];
    } else {
      var rest := p.pointer[|q.pointer|..];
      assert inner[|q.pointer|..] == rest + [key];
      AtAppend(e.doc, rest, key);
    }
  }

  lemma MemberAt(members: seq<Member>, i: nat)
    requires i < |members| && WellFormed(Object(members))
    ensures Child(Object(members), members[i].key) == Found(members[i].value)
  {
    HasAt(members, i);
    GetAt(members, i);
  }

  // ---------------------------------------------------------------- keywords under way

  /** The keywords being compiled lie apart from whatever may be asked for now. */
  lemma AskedApart(plan: Plan, files: map<string, SchemaFile>, uri: U.Uri, bound: nat, active: set<Place>)
    requires PlanOk(plan) && Tidy(plan, files) && AskTidy(plan, uri, bound) && uri.pointer != []
    requires !Seen(files, PlaceOf(uri)).OutOfRange?
    requires forall p | p in active :: p in plan.asked && plan.asked[p].rank >= bound
    ensures PlaceOf(uri) in plan.asked && plan.asked[PlaceOf(uri)].uri == uri && plan.asked[PlaceOf(uri)].rank < bound
    ensures Apart(PlaceOf(uri), active)
  {
    assert !Apart(PlaceOf(uri), plan.kept);
  }
}
