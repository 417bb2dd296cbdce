/** Runs of compilation in place, put together from their steps; and the keywords whose compilation
    never ends, by a condition on the tree alone. */

module InPlaceRuns {
  import opened Wrappers
  import opened Json
  import opened Documents
  import opened Denotation
  import opened CompileSteps
  import opened InPlace
  import S = Strings
  import U = Uri
  import Percent

  // ---------------------------------------------------------------- runs put together

  ghost predicate RunsBy(step: Step, s: State, jobs: seq<Job>, t: State, fuel: nat) {
    Steps(step) && WellFormed(s.tree) && Work(step, s, jobs, fuel) == Made(t)
  }

  /** Steps that are those of compilation wherever one looks. */
  ghost predicate Compiles(step: Step) {
    Steps(step) && forall s, job {:trigger Look(s, job)} :: Look(s, job) ==> step(s, job) == Now(s, job)
  }

  ghost predicate Look(s: State, job: Job) { true }

  lemma NowCompiles()
    ensures Compiles(Now)
  {
    NowSteps();
  }

  /** Jobs that are done leave the rest to be done. */
  lemma {:induction false} AfterRuns(step: Step, s: State, a: seq<Job>, t: State, b: seq<Job>, fuel: nat)
    requires RunsBy(step, s, a, t, fuel)
    ensures WellFormed(t.tree) && Work(step, s, a + b, fuel) == Work(step, t, b, fuel)
    decreases Compounds(a), |a|
  {
    if a == [] {
      assert a + b == b;
    } else {
      var job, rest := a[0], a[1..];
      var move := step(s, job);
      assert Proper(s, job, move);
      assert (a + b)[0] == job && (a + b)[1..] == rest + b;
      if move.Next? {
        AfterRuns(step, move.state, rest, t, b, fuel);
      } else if move.More? {
        MorePlain(move.jobs, a);
        AfterRuns(step, s, move.jobs + rest, t, b, fuel);
        assert move.jobs + rest + b == move.jobs + (rest + b);
      } else {
        AfterRuns(step, Work(step, s, move.jobs, fuel - 1).state, rest, t, b, fuel);
      }
    }
  }

  lemma RunsJoin(step: Step, s: State, a: seq<Job>, t: State, b: seq<Job>, u: State, fuel: nat)
    requires RunsBy(step, s, a, t, fuel) && RunsBy(step, t, b, u, fuel)
    ensures RunsBy(step, s, a + b, u, fuel)
  {
    AfterRuns(step, s, a, t, b, fuel);
  }

  lemma RunsNext(step: Step, s: State, job: Job, t: State, fuel: nat)
    requires Steps(step) && WellFormed(s.tree) && step(s, job) == Next(t)
    ensures RunsBy(step, s, [job], t, fuel)
  {
    var jobs := [job];
    assert jobs[0] == job && jobs[1..] == [] && Proper(s, job, step(s, job));
  }

  lemma RunsMore(step: Step, s: State, job: Job, js: seq<Job>, t: State, fuel: nat)
    requires step(s, job) == More(js) && RunsBy(step, s, js, t, fuel)
    ensures RunsBy(step, s, [job], t, fuel)
  {
    var jobs := [job];
    assert jobs[0] == job && jobs[1..] == [] && Proper(s, job, step(s, job));
    assert js + [] == js;
  }

  lemma RunsCall(step: Step, s: State, job: Job, js: seq<Job>, t: State, fuel: nat)
    requires fuel > 0 && step(s, job) == Call(js) && RunsBy(step, s, js, t, fuel - 1)
    ensures RunsBy(step, s, [job], t, fuel)
  {
    var jobs := [job];
    assert jobs[0] == job && jobs[1..] == [] && Proper(s, job, step(s, job));
  }

  lemma RunsTwo(step: Step, s: State, x: Job, t: State, y: Job, u: State, fuel: nat)
    requires RunsBy(step, s, [x], t, fuel) && RunsBy(step, t, [y], u, fuel)
    ensures RunsBy(step, s, [x, y], u, fuel)
  {
    RunsJoin(step, s, [x], t, [y], u, fuel);
    assert [x] + [y] == [x, y];
  }

  // ---------------------------------------------------------------- keywords that are not there

  function PartKey(part: Part): string {
    match part
    case Items => "items"
    case If => "if"
    case Leaf(key) => key
    case One(key) => key
    case Each(key, _) => key
  }

  ghost predicate Untouched(members: seq<Member>, parts: seq<Part>) {
    forall i | 0 <= i < |parts| :: !Has(members, PartKey(parts[i]))
  }

  lemma AbsentRead(step: Step, s: State, at: Pointer, uri: Pointer, part: Part, fuel: nat)
    requires Compiles(step) && WellFormed(s.tree) && !Has(MembersAt(s.tree, at), PartKey(part))
    ensures RunsBy(step, s, [Read(at, uri, part)], s, fuel)
  {
    assert Look(s, Read(at, uri, part));
    if part.Leaf? {
      RunsNext(step, s, Read(at, uri, part), s, fuel);
    } else {
      assert Sub(MembersAt(s.tree, at), at, uri, part) == [];
      RunsMore(step, s, Read(at, uri, part), [], s, fuel);
    }
  }

  /** Keywords that are not there are passed over. */
  lemma {:induction false} PassedOver(step: Step, s: State, at: Pointer, uri: Pointer, parts: seq<Part>, fuel: nat)
    requires Compiles(step) && WellFormed(s.tree) && Untouched(MembersAt(s.tree, at), parts)
    ensures RunsBy(step, s, Reads(at, uri, parts), s, fuel)
  {
    if parts != [] {
      assert !Has(MembersAt(s.tree, at), PartKey(parts[0]));
      AbsentRead(step, s, at, uri, parts[0], fuel);
      assert forall i | 0 <= i < |parts[1..]| :: parts[1..][i] == parts[i + 1];
      PassedOver(step, s, at, uri, parts[1..], fuel);
      assert Reads(at, uri, parts) == [Read(at, uri, parts[0])] + Reads(at, uri, parts[1..]);
      RunsJoin(step, s, [Read(at, uri, parts[0])], s, Reads(at, uri, parts[1..]), s, fuel);
    }
  }

  lemma ReadsSplit(at: Pointer, uri: Pointer, parts: seq<Part>, i: nat)
    requires i < |parts|
    ensures Reads(at, uri, parts) ==
      Reads(at, uri, parts[..i]) + ([Read(at, uri, parts[i])] + Reads(at, uri, parts[i + 1..]))
  {
  }

  /** One keyword is there, between others that are not. */
  lemma OneRead(step: Step, s: State, at: Pointer, uri: Pointer, parts: seq<Part>, i: nat, t: State, fuel: nat)
    requires Compiles(step) && i < |parts| && RunsBy(step, s, [Read(at, uri, parts[i])], t, fuel) && WellFormed(t.tree)
    requires Untouched(MembersAt(s.tree, at), parts[..i]) && Untouched(MembersAt(t.tree, at), parts[i + 1..])
    ensures RunsBy(step, s, Reads(at, uri, parts), t, fuel)
  {
    PassedOver(step, s, at, uri, parts[..i], fuel);
    PassedOver(step, t, at, uri, parts[i + 1..], fuel);
    RunsJoin(step, s, [Read(at, uri, parts[i])], t, Reads(at, uri, parts[i + 1..]), t, fuel);
    RunsJoin(step, s, Reads(at, uri, parts[..i]), s, [Read(at, uri, parts[i])] + Reads(at, uri, parts[i + 1..]), t,
      fuel);
    ReadsSplit(at, uri, parts, i);
  }

  lemma CutRuns(step: Step, s: State, at: Pointer, key: string, fuel: nat)
    requires Compiles(step) && WellFormed(s.tree)
    ensures WellFormed(Erased(s, at, key).tree) && RunsBy(step, s, [Cut(at, key)], Erased(s, at, key), fuel)
    ensures !Has(MembersAt(s.tree, at), key) ==> Erased(s, at, key) == s
  {
    assert Look(s, Cut(at, key));
    ErasedShrinks(s, at, key);
    RunsNext(step, s, Cut(at, key), Erased(s, at, key), fuel);
  }

  /** What the end of a schema leaves of the state. */
  function Trimmed(s: State, at: Pointer): State {
    Erased(Erased(Erased(s, at, "$schema"), at, "title"), at, "description")
  }

  lemma TrimRuns(step: Step, s: State, at: Pointer, uri: Pointer, fuel: nat)
    requires Compiles(step) && WellFormed(s.tree) && uri in s.free
    ensures WellFormed(Trimmed(s, at).tree) && Trimmed(s, at).free == s.free
    ensures RunsBy(step, s, Trim(at, uri), Trimmed(s, at).(free := s.free - {uri}), fuel)
  {
    var a := Erased(s, at, "$schema");
    var b := Erased(a, at, "title");
    var c := Erased(b, at, "description");
    CutRuns(step, s, at, "$schema", fuel);
    CutRuns(step, a, at, "title", fuel);
    CutRuns(step, b, at, "description", fuel);
    assert Look(c, Store(uri));
    RunsNext(step, c, Store(uri), c.(free := c.free - {uri}), fuel);
    RunsTwo(step, s, Cut(at, "$schema"), a, Cut(at, "title"), b, fuel);
    RunsTwo(step, b, Cut(at, "description"), c, Store(uri), c.(free := c.free - {uri}), fuel);
    RunsJoin(step, s, [Cut(at, "$schema"), Cut(at, "title")], b, [Cut(at, "description"), Store(uri)],
      c.(free := c.free - {uri}), fuel);
    assert Trim(at, uri) == [Cut(at, "$schema"), Cut(at, "title")] + [Cut(at, "description"), Store(uri)];
  }

  const DEFINITIONS := Each("definitions", ["definitions"])

  /** A schema: its definitions, its keywords, and its end. */
  lemma {:induction false} VisitRuns(step: Step, s: State, at: Pointer, uri: Pointer, t: State, u: State, fuel: nat)
    requires Compiles(step) && fuel > 0 && At(s.tree, at).Found? && At(s.tree, at).json.Object? && uri in u.free
    requires RunsBy(step, s, [Read(at, uri, DEFINITIONS)], t, fuel - 1)
    requires RunsBy(step, t, [Parts(at, uri)], u, fuel - 1) && WellFormed(u.tree)
    ensures WellFormed(Trimmed(u, at).tree)
    ensures RunsBy(step, s, [Visit(at, uri)], Trimmed(u, at).(free := u.free - {uri}), fuel)
  {
    var last := Trimmed(u, at).(free := u.free - {uri});
    assert Look(s, Visit(at, uri));
    TrimRuns(step, u, at, uri, fuel - 1);
    RunsTwo(step, s, Read(at, uri, DEFINITIONS), t, Parts(at, uri), u, fuel - 1);
    RunsJoin(step, s, [Read(at, uri, DEFINITIONS), Parts(at, uri)], u, Trim(at, uri), last, fuel - 1);
    RunsCall(step, s, Visit(at, uri), [Read(at, uri, DEFINITIONS), Parts(at, uri)] + Trim(at, uri), last, fuel);
  }

  /** A keyword that is asked for, in a tree where its pointer is no name. */
  lemma {:induction false} AskRuns(step: Step, s: State, p: Pointer, t: State, fuel: nat)
    requires Compiles(step) && fuel > 0 && p in s.free && p != [] && At(s.tree, p).Found?
    requires RunsBy(step, s, [Visit(p, p)], t, fuel - 1) && WellFormed(t.tree)
    requires !Has(MembersAt(t.tree, []), S.PointerText(p))
    ensures RunsBy(step, s, [Ask(p)], t, fuel)
  {
    assert Look(s, Ask(p));
    CutRuns(step, t, [], S.PointerText(p), fuel - 1);
    RunsTwo(step, s, Visit(p, p), t, Cut([], S.PointerText(p)), t, fuel - 1);
    RunsCall(step, s, Ask(p), [Visit(p, p), Cut([], S.PointerText(p))], t, fuel);
  }

  /** The keywords of a schema that is no reference. */
  lemma {:induction false} PartsRuns(step: Step, s: State, at: Pointer, uri: Pointer, members: seq<Member>, t: State,
        fuel: nat)
    requires Compiles(step) && fuel > 0 && At(s.tree, at) == Found(Object(members)) && !Has(members, "$ref")
    requires RunsBy(step, s, Reads(at, uri, SchemaParts(members)), t, fuel - 1)
    ensures RunsBy(step, s, [Parts(at, uri)], t, fuel)
  {
    assert Look(s, Parts(at, uri));
    RunsCall(step, s, Parts(at, uri), Reads(at, uri, SchemaParts(members)), t, fuel);
  }

  /** A reference: what it asks for, then the keyword goes. */
  lemma {:induction false} ReferenceRuns(step: Step, s: State, at: Pointer, uri: Pointer, members: seq<Member>,
        p: Pointer, t: State,
        fuel: nat)
    requires Compiles(step) && fuel > 0 && At(s.tree, at) == Found(Object(members)) && Has(members, "$ref")
    requires Target(members) == Some(p) && RunsBy(step, s, [Ask(p)], t, fuel - 1) && WellFormed(t.tree)
    ensures RunsBy(step, s, [Parts(at, uri)], Erased(Erased(t, at, "$ref"), at, "default"), fuel)
    ensures WellFormed(Erased(Erased(t, at, "$ref"), at, "default").tree)
  {
    var a := Erased(t, at, "$ref");
    var b := Erased(a, at, "default");
    assert Look(s, Parts(at, uri)) && Look(s, Refer(at));
    RunsMore(step, s, Refer(at), [Ask(p)], t, fuel - 1);
    CutRuns(step, t, at, "$ref", fuel - 1);
    CutRuns(step, a, at, "default", fuel - 1);
    RunsTwo(step, s, Refer(at), t, Cut(at, "$ref"), a, fuel - 1);
    RunsJoin(step, s, [Refer(at), Cut(at, "$ref")], a, [Cut(at, "default")], b, fuel - 1);
    assert [Refer(at), Cut(at, "$ref")] + [Cut(at, "default")] == [Refer(at), Cut(at, "$ref"), Cut(at, "default")];
    RunsCall(step, s, Parts(at, uri), [Refer(at), Cut(at, "$ref"), Cut(at, "default")], b, fuel);
  }

  // ---------------------------------------------------------------- what a schema asks for first

  /** The first keyword of a list that a schema has; the length of the list when it has none. */
  function FirstIndex(members: seq<Member>, parts: seq<Part>): (i: nat)
    ensures i <= |parts| && Untouched(members, parts[..i])
    ensures i < |parts| ==> Has(members, PartKey(parts[i]))
  {
    if parts == [] || Has(members, PartKey(parts[0])) then 0
    else
      var i := FirstIndex(members, parts[1..]);
      assert parts[..i + 1] == [parts[0]] + parts[1..][..i];
      i + 1
  }

  /** The first member of a list or table of schemas. */
  function FirstMember(d: Json): Option<Json> {
    if (d.Object? || d.Array?) && Values(d) != [] then Some(Values(d)[0]) else None
  }

  /** The place a schema asks for before compiling it has erased or stored anything: that of its
      `$ref`, or what its first definition or the first schema under its first keyword asks for. */
  function First(doc: Json): Option<Pointer>
    decreases Size(doc)
  {
    if !doc.Object? then None
    else if Has(doc.members, "definitions") then FirstIn(doc, FirstMember(Opt(doc.members, "definitions").value))
    else if Has(doc.members, "$ref") then Target(doc.members)
    else
      var parts := SchemaParts(doc.members);
      var i := FirstIndex(doc.members, parts);
      if i == |parts| then None else FirstIn(doc, FirstSub(doc.members, parts[i]))
  }

  function FirstIn(doc: Json, sub: Option<Json>): Option<Pointer>
    decreases Size(doc), 0
  {
    if sub.Some? && Size(sub.value) < Size(doc) then First(sub.value) else None
  }

  /** The schema that reading a keyword begins with. */
  function FirstSub(members: seq<Member>, part: Part): Option<Json>
    requires Has(members, PartKey(part))
  {
    match part
    case Leaf(_) => None
    case One(key) => Some(Get(members, key))
    case Each(key, _) => if key == "dependencies" then None else FirstMember(Get(members, key))
    case Items =>
      var items := Get(members, "items");
      if items.Array? then FirstMember(items) else if items.Object? then Some(items) else None
    case If => if Has(members, "then") || Has(members, "else") then Some(Get(members, "if")) else None
  }

  /** With any fuel up to this much the keyword is asked for in vain. */
  ghost predicate Vain(step: Step, s: State, q: Pointer, fuel: int)
    requires Steps(step) && WellFormed(s.tree)
  {
    forall f: nat | f <= fuel :: Work(step, s, [Ask(q)], f) == Deep
  }

  lemma {:induction false} VainLess(step: Step, s: State, q: Pointer, fuel: int, less: int)
    requires Steps(step) && WellFormed(s.tree) && Vain(step, s, q, fuel) && less <= fuel
    ensures Vain(step, s, q, less)
  {
  }

  /** Jobs that exhaust their fuel leave none for what follows. */
  lemma {:induction false} DeepStays(step: Step, s: State, a: seq<Job>, b: seq<Job>, fuel: nat)
    requires Steps(step) && WellFormed(s.tree) && Work(step, s, a, fuel) == Deep
    ensures Work(step, s, a + b, fuel) == Deep
    decreases Compounds(a), |a|
  {
    var job, rest := a[0], a[1..];
    var move := step(s, job);
    assert Proper(s, job, move);
    assert (a + b)[0] == job && (a + b)[1..] == rest + b;
    if move.Next? {
      DeepStays(step, move.state, rest, b, fuel);
    } else if move.More? {
      MorePlain(move.jobs, a);
      DeepStays(step, s, move.jobs + rest, b, fuel);
      assert move.jobs + rest + b == move.jobs + (rest + b);
    } else if fuel > 0 && Work(step, s, move.jobs, fuel - 1).Made? {
      DeepStays(step, Work(step, s, move.jobs, fuel - 1).state, rest, b, fuel);
    }
  }

  lemma {:induction false} DeepFirst(step: Step, s: State, job: Job, js: seq<Job>, rest: seq<Job>, fuel: nat)
    requires Steps(step) && WellFormed(s.tree) && step(s, job) == More(js) && Work(step, s, js, fuel) == Deep
    ensures Work(step, s, [job] + rest, fuel) == Deep
  {
    var jobs := [job] + rest;
    assert jobs[0] == job && jobs[1..] == rest && Proper(s, job, step(s, job));
    DeepStays(step, s, js, rest, fuel);
  }

  lemma {:induction false} DeepCall(step: Step, s: State, job: Job, js: seq<Job>, rest: seq<Job>, fuel: nat)
    requires Steps(step) && WellFormed(s.tree) && step(s, job) == Call(js)
    requires fuel > 0 ==> Work(step, s, js, fuel - 1) == Deep
    ensures Work(step, s, [job] + rest, fuel) == Deep
  {
    var jobs := [job] + rest;
    assert jobs[0] == job && jobs[1..] == rest && Proper(s, job, step(s, job));
  }

  lemma {:induction false} ReferLeads(step: Step, s: State, at: Pointer, q: Pointer, rest: seq<Job>, fuel: nat)
    requires Compiles(step) && WellFormed(s.tree) && Target(MembersAt(s.tree, at)) == Some(q) && Vain(step, s, q, fuel)
    ensures Work(step, s, [Refer(at)] + rest, fuel) == Deep
  {
    assert Look(s, Refer(at));
    DeepFirst(step, s, Refer(at), [Ask(q)], rest, fuel);
  }

  lemma {:induction false} ValueAt(d: Json, p: Pointer)
    requires WellFormed(d) && FirstMember(d).Some?
    ensures At(d, [Keys(d)[0]]) == Found(Values(d)[0])
  {
    match d {
      case Object(members) => AtMember(members, 0);
      case Array(items) => AtItem(items, 0);
    }
  }

  lemma {:induction false} AtJoin(j: Json, p: Pointer, q: Pointer)
    requires At(j, p).Found?
    ensures At(j, p + q) == At(At(j, p).json, q)
  {
    if p == [] {
      assert p + q == q;
    } else {
      assert (p + q)[1..] == p[1..] + q;
      AtJoin(Child(j, p[0]).json, p[1..], q);
    }
  }

  /** The first job of a list visits a schema. */
  ghost predicate Begins(tree: Json, js: seq<Job>, sub: Json) {
    js != [] && js[0].Visit? && At(tree, js[0].at) == Found(sub)
  }

  lemma {:induction false} StandsUnder(tree: Json, at: Pointer, members: seq<Member>, key: string)
    requires WellFormed(tree) && At(tree, at) == Found(Object(members)) && Has(members, key)
    ensures At(tree, at + [key]) == Found(Get(members, key)) && WellFormed(Get(members, key))
    ensures FirstMember(Get(members, key)).Some? ==>
      At(tree, at + [key] + [Keys(Get(members, key))[0]]) == Found(FirstMember(Get(members, key)).value)
  {
    var d := Get(members, key);
    assert At(Object(members), [key]) == Found(d) by { assert [key][1..] == []; }
    AtJoin(tree, at, [key]);
    AtKeeps(tree, at + [key]);
    if FirstMember(d).Some? {
      ValueAt(d, at);
      AtJoin(tree, at + [key], [Keys(d)[0]]);
    }
  }

  lemma {:induction false} VisitsBegin(tree: Json, at: Pointer, uri: Pointer, key: string, d: Json, rest: seq<Job>)
    requires FirstMember(d).Some? && key != "dependencies"
    requires At(tree, at + [Keys(d)[0]]) == Found(FirstMember(d).value)
    ensures Begins(tree, Visits(at, uri, SchemaKeys(key, Keys(d), Values(d))) + rest, FirstMember(d).value)
    ensures Begins(tree, Visits(at, uri, Keys(d)) + rest, FirstMember(d).value)
  {
    assert SchemaKeys(key, Keys(d), Values(d))[0] == Keys(d)[0];
  }

  /** The first schema under a keyword stands where reading the keyword goes first. */
  lemma {:induction false} FirstStands(tree: Json, at: Pointer, uri: Pointer, members: seq<Member>, part: Part)
    requires WellFormed(tree) && At(tree, at) == Found(Object(members)) && Has(members, PartKey(part))
    requires FirstSub(members, part).Some?
    ensures Begins(tree, Sub(members, at, uri, part), FirstSub(members, part).value)
  {
    StandsUnder(tree, at, members, PartKey(part));
    match part {
      case One(key) =>
      case Each(key, prefix) => VisitsBegin(tree, at + [key], uri + prefix, key, Get(members, key), [Cut(at, key)]);
      case If =>
      case Items =>
        var items := Get(members, "items");
        if items.Array? {
          ItemsBegin(tree, at, uri, members);
        }
    }
  }

  lemma {:induction false} ItemsBegin(tree: Json, at: Pointer, uri: Pointer, members: seq<Member>)
    requires Has(members, "items") && Get(members, "items").Array? && FirstMember(Get(members, "items")).Some?
    requires At(tree, at + ["items"] + [Keys(Get(members, "items"))[0]]) ==
      Found(FirstMember(Get(members, "items")).value)
    ensures Begins(tree, ItemsSub(members, at, uri, Get(members, "items")), FirstMember(Get(members, "items")).value)
  {
    var items := Get(members, "items");
    var rest := Inside(members, at, uri, "additionalItems") + [Cut(at, "items")];
    VisitsBegin(tree, at + ["items"], uri + ["items"], "items", items, rest);
    var visits := Visits(at + ["items"], uri + ["items"], Keys(items));
    assert visits + rest == visits + Inside(members, at, uri, "additionalItems") + [Cut(at, "items")];
  }

  /** Compiling a schema comes down to asking for the place it asks for first. */
  lemma {:induction false} Leads(step: Step, s: State, doc: Json, at: Pointer, uri: Pointer, q: Pointer, fuel: nat)
    requires Compiles(step) && WellFormed(s.tree) && At(s.tree, at) == Found(doc)
    requires First(doc) == Some(q) && Vain(step, s, q, fuel)
    ensures Work(step, s, [Visit(at, uri)], fuel) == Deep
    decreases Size(doc), 1
  {
    var jobs := [Read(at, uri, DEFINITIONS), Parts(at, uri)] + Trim(at, uri);
    assert Look(s, Visit(at, uri));
    assert jobs == [Read(at, uri, DEFINITIONS)] + ([Parts(at, uri)] + Trim(at, uri));
    if fuel > 0 { InnerLeads(step, s, doc, at, uri, q, Trim(at, uri), fuel - 1); }
    DeepCall(step, s, Visit(at, uri), jobs, [], fuel);
    assert [Visit(at, uri)] + [] == [Visit(at, uri)];
  }

  lemma {:induction false} InnerLeads(step: Step, s: State, doc: Json, at: Pointer, uri: Pointer, q: Pointer,
        rest: seq<Job>, fuel: nat)
    requires Compiles(step) && WellFormed(s.tree) && At(s.tree, at) == Found(doc)
    requires First(doc) == Some(q) && Vain(step, s, q, fuel)
    ensures Work(step, s, [Read(at, uri, DEFINITIONS)] + ([Parts(at, uri)] + rest), fuel) == Deep
    decreases Size(doc), 0, 3
  {
    if Has(doc.members, "definitions") {
      PartLeads(step, s, doc.members, at, uri, DEFINITIONS, q, [Parts(at, uri)] + rest, fuel);
    } else {
      AbsentRead(step, s, at, uri, DEFINITIONS, fuel);
      BodyLeads(step, s, doc.members, at, uri, q, rest, fuel);
      AfterRuns(step, s, [Read(at, uri, DEFINITIONS)], s, [Parts(at, uri)] + rest, fuel);
    }
  }

  /** The keywords of a schema without definitions. */
  lemma {:induction false} BodyLeads(step: Step, s: State, members: seq<Member>, at: Pointer, uri: Pointer, q: Pointer,
        rest: seq<Job>, fuel: nat)
    requires Compiles(step) && WellFormed(s.tree) && At(s.tree, at) == Found(Object(members))
    requires !Has(members, "definitions") && First(Object(members)) == Some(q) && Vain(step, s, q, fuel)
    ensures Work(step, s, [Parts(at, uri)] + rest, fuel) == Deep
    decreases Size(Object(members)), 0, 2
  {
    if Has(members, "$ref") {
      FirstReference(members, q);
      ReferenceLeads(step, s, members, at, uri, q, rest, fuel);
    } else {
      var parts, i := FirstKeyword(members, q);
      VainLess(step, s, q, fuel, fuel - 1);
      KeywordLeads(step, s, members, at, uri, parts, i, q, fuel - 1);
      PartsLead(step, s, members, at, uri, parts, rest, fuel);
    }
  }

  lemma {:induction false} ReferenceLeads(step: Step, s: State, members: seq<Member>, at: Pointer, uri: Pointer,
        q: Pointer, rest: seq<Job>, fuel: nat)
    requires Compiles(step) && WellFormed(s.tree) && At(s.tree, at) == Found(Object(members)) && Has(members, "$ref")
    requires Target(members) == Some(q) && Vain(step, s, q, fuel)
    ensures Work(step, s, [Parts(at, uri)] + rest, fuel) == Deep
  {
    var left := [Cut(at, "$ref"), Cut(at, "default")];
    if fuel > 0 { ReferLeads(step, s, at, q, left, fuel - 1); }
    assert [Refer(at), Cut(at, "$ref"), Cut(at, "default")] == [Refer(at)] + left;
    assert Look(s, Parts(at, uri));
    DeepCall(step, s, Parts(at, uri), [Refer(at)] + left, rest, fuel);
  }

  lemma {:induction false} PartsLead(step: Step, s: State, members: seq<Member>, at: Pointer, uri: Pointer,
        parts: seq<Part>, rest: seq<Job>, fuel: nat)
    requires Compiles(step) && WellFormed(s.tree) && At(s.tree, at) == Found(Object(members)) && !Has(members, "$ref")
    requires parts == SchemaParts(members)
    requires fuel > 0 ==> Work(step, s, Reads(at, uri, parts), fuel - 1) == Deep
    ensures Work(step, s, [Parts(at, uri)] + rest, fuel) == Deep
  {
    assert Look(s, Parts(at, uri));
    DeepCall(step, s, Parts(at, uri), Reads(at, uri, parts), rest, fuel);
  }

  lemma {:induction false} FirstReference(members: seq<Member>, q: Pointer)
    requires !Has(members, "definitions") && Has(members, "$ref") && First(Object(members)) == Some(q)
    ensures Target(members) == Some(q)
  {
  }

  lemma {:induction false} FirstKeyword(members: seq<Member>, q: Pointer) returns (parts: seq<Part>, i: nat)
    requires !Has(members, "definitions") && !Has(members, "$ref") && First(Object(members)) == Some(q)
    ensures parts == SchemaParts(members) && i < |parts| && Untouched(members, parts[..i])
    ensures Has(members, PartKey(parts[i])) && FirstIn(Object(members), FirstSub(members, parts[i])) == Some(q)
  {
    parts := SchemaParts(members);
    i := FirstIndex(members, parts);
  }

  lemma {:induction false} KeywordLeads(step: Step, s: State, members: seq<Member>, at: Pointer, uri: Pointer,
        parts: seq<Part>, i: nat, q: Pointer, fuel: int)
    requires Compiles(step) && WellFormed(s.tree) && At(s.tree, at) == Found(Object(members))
    requires i < |parts| && Untouched(members, parts[..i]) && Has(members, PartKey(parts[i]))
    requires FirstIn(Object(members), FirstSub(members, parts[i])) == Some(q) && Vain(step, s, q, fuel)
    ensures fuel >= 0 ==> Work(step, s, Reads(at, uri, parts), fuel) == Deep
    decreases Size(Object(members)), 0, 1
  {
    if fuel >= 0 {
      var next := Reads(at, uri, parts[i + 1..]);
      PassedOver(step, s, at, uri, parts[..i], fuel);
      PartLeads(step, s, members, at, uri, parts[i], q, next, fuel);
      AfterRuns(step, s, Reads(at, uri, parts[..i]), s, [Read(at, uri, parts[i])] + next, fuel);
      ReadsSplit(at, uri, parts, i);
    }
  }

  /** The keyword whose schema asks first. */
  lemma {:induction false} PartLeads(step: Step, s: State, members: seq<Member>, at: Pointer, uri: Pointer, part: Part,
        q: Pointer, rest: seq<Job>, fuel: nat)
    requires Compiles(step) && WellFormed(s.tree) && At(s.tree, at) == Found(Object(members))
    requires Has(members, PartKey(part)) && FirstIn(Object(members), FirstSub(members, part)) == Some(q)
    requires Vain(step, s, q, fuel)
    ensures Work(step, s, [Read(at, uri, part)] + rest, fuel) == Deep
    decreases Size(Object(members)), 0, 0
  {
    var js := Sub(members, at, uri, part);
    FirstStands(s.tree, at, uri, members, part);
    Leads(step, s, FirstSub(members, part).value, js[0].at, js[0].uri, q, fuel);
    ReadLeads(step, s, at, uri, part, js, rest, fuel);
  }

  lemma {:induction false} ReadLeads(step: Step, s: State, at: Pointer, uri: Pointer, part: Part, js: seq<Job>,
        rest: seq<Job>, fuel: nat)
    requires Compiles(step) && WellFormed(s.tree) && js == Sub(MembersAt(s.tree, at), at, uri, part) && js != []
    requires js[0].Visit? && Work(step, s, [Visit(js[0].at, js[0].uri)], fuel) == Deep
    ensures Work(step, s, [Read(at, uri, part)] + rest, fuel) == Deep
  {
    assert js == [js[0]] + js[1..] && js[0] == Visit(js[0].at, js[0].uri);
    DeepStays(step, s, [js[0]], js[1..], fuel);
    assert Look(s, Read(at, uri, part));
    DeepFirst(step, s, Read(at, uri, part), js, rest, fuel);
  }

  // ---------------------------------------------------------------- cycles of keywords

  /** Keywords that nothing is stored for, each of which asks first for the next, the last one for
      the first: a condition on the tree alone. */
  ghost predicate Cycle(s: State, ps: seq<Pointer>) {
    ps != [] && forall i | 0 <= i < |ps| ::
      && ps[i] != [] && ps[i] in s.free && At(s.tree, ps[i]).Found?
      && First(At(s.tree, ps[i]).json) == Some(ps[if i + 1 < |ps| then i + 1 else 0])
  }

  lemma {:induction false} AskDeep(step: Step, s: State, p: Pointer, q: Pointer, fuel: nat)
    requires Compiles(step) && WellFormed(s.tree) && p != [] && p in s.free && At(s.tree, p).Found?
    requires First(At(s.tree, p).json) == Some(q) && Vain(step, s, q, fuel - 1)
    ensures Work(step, s, [Ask(p)], fuel) == Deep
  {
    VisitLeads(step, s, p, q, fuel - 1);
    AskCalls(step, s, p, fuel);
  }

  lemma {:induction false} VisitLeads(step: Step, s: State, p: Pointer, q: Pointer, fuel: int)
    requires Compiles(step) && WellFormed(s.tree) && At(s.tree, p).Found?
    requires First(At(s.tree, p).json) == Some(q) && Vain(step, s, q, fuel)
    ensures fuel >= 0 ==> Work(step, s, [Visit(p, p)], fuel) == Deep
  {
    if fuel >= 0 { Leads(step, s, At(s.tree, p).json, p, p, q, fuel); }
  }

  lemma {:induction false} AskCalls(step: Step, s: State, p: Pointer, fuel: nat)
    requires Compiles(step) && WellFormed(s.tree) && p != [] && p in s.free && At(s.tree, p).Found?
    requires fuel > 0 ==> Work(step, s, [Visit(p, p)], fuel - 1) == Deep
    ensures Work(step, s, [Ask(p)], fuel) == Deep
  {
    var left := [Cut([], S.PointerText(p))];
    assert Look(s, Ask(p));
    if fuel > 0 { DeepStays(step, s, [Visit(p, p)], left, fuel - 1); }
    DeepCall(step, s, Ask(p), [Visit(p, p)] + left, [], fuel);
    assert [Ask(p)] + [] == [Ask(p)];
  }

  lemma {:induction false} CycleDeep(step: Step, s: State, ps: seq<Pointer>, i: nat, fuel: nat)
    requires Compiles(step) && WellFormed(s.tree) && Cycle(s, ps) && i < |ps|
    ensures Work(step, s, [Ask(ps[i])], fuel) == Deep
    decreases fuel
  {
    var next := if i + 1 < |ps| then i + 1 else 0;
    forall f: nat | f <= fuel - 1 ensures Work(step, s, [Ask(ps[next])], f) == Deep {
      CycleDeep(step, s, ps, next, f);
    }
    AskDeep(step, s, ps[i], ps[next], fuel);
  }

  /** Asking for a keyword on such a cycle never ends, with any fuel, and is found out without. */
  lemma {:induction false} CycleEndless(s: State, ps: seq<Pointer>, i: nat)
    requires WellFormed(s.tree) && Cycle(s, ps) && i < |ps|
    ensures Steps(Now) && Watch(Now, s, [Ask(ps[i])], {}, -1) == Endless
    ensures forall fuel: nat :: Work(Now, s, [Ask(ps[i])], fuel) == Deep
  {
    NowCompiles();
    forall fuel: nat ensures Work(Now, s, [Ask(ps[i])], fuel) == Deep { CycleDeep(Now, s, ps, i, fuel); }
    EndlessIff(s, [Ask(ps[i])]);
  }

  // ---------------------------------------------------------------- references written as pointers

  lemma {:induction false} NoPercent(w: string, tail: string)
    requires '%' !in w
    ensures Percent.Pass(w, tail) == w + tail
  {
    if w == [] {
      assert w + tail == tail;
    } else {
      NoPercent(w[1..], tail);
      assert w[0] in w && forall c | c in w[1..] :: c in w;
      assert [w[0]] + (w[1..] + tail) == w + tail;
    }
  }

  lemma {:induction false} EscapeNoPercent(s: string)
    requires '%' !in s
    ensures '%' !in S.Escape(s)
  {
    if s != [] {
      assert s[0] in s && forall c | c in s[1..] :: c in s;
      EscapeNoPercent(s[1..]);
    }
  }

  lemma {:induction false} PrefixedNoPercent(parts: seq<string>)
    requires forall i | 0 <= i < |parts| :: '%' !in parts[i]
    ensures '%' !in S.Prefixed(parts, '/')
  {
    if parts != [] {
      assert '%' !in parts[0];
      assert forall i | 0 <= i < |parts[1..]| :: parts[1..][i] == parts[i + 1];
      PrefixedNoPercent(parts[1..]);
    }
  }

  /** The reference that spells out a pointer. */
  function RefTo(p: Pointer): Member {
    Member("$ref", String("#" + S.PointerText(p)))
  }

  lemma PlainFragment(text: string)
    requires '%' !in text && text != []
    ensures Percent.Decoded(text) == Some(text)
  {
    assert text[0] in text && forall c | c in text[1..] :: c in text;
    NoPercent(text[1..], []);
    assert [text[0]] + (text[1..] + []) == text;
  }

  lemma ReferenceTarget(p: Pointer)
    requires p != [] && forall i | 0 <= i < |p| :: '%' !in p[i]
    ensures Target([RefTo(p)]) == Some(p)
  {
    var text := S.PointerText(p);
    forall i | 0 <= i < |p| ensures '%' !in S.Escaped(p)[i] { EscapeNoPercent(p[i]); }
    PrefixedNoPercent(S.Escaped(p));
    S.PointerRoundTrip(p);
    PlainFragment(text);
    ReferenceParts(text);
  }

  lemma ReferenceParts(text: string)
    ensures U.LocationPart("#" + text) == "" && U.FragmentPart("#" + text) == text
  {
    var s := "#" + text;
    assert s[0] == '#' && s[1..] == text && s[..0] == "";
  }

  // ---------------------------------------------------------------- schemas without a type

  const TAIL := ARRAY_PARTS + STRING_PARTS + [Leaf("type"), Leaf("default")] + NUMBER_PARTS + [Leaf("enum")]

  lemma {:induction false} KindFirst(types: seq<string>, rest: seq<string>, parts: seq<Part>)
    requires types != [] && rest == types[1..]
    requires types[0] == "object" ==> parts == OBJECT_PARTS
    requires types[0] == "array" ==> parts == ARRAY_PARTS
    requires types[0] == "string" ==> parts == STRING_PARTS
    requires types[0] != "object" && types[0] != "array" && types[0] != "string" ==> parts == []
    ensures KindParts(types) == parts + KindParts(rest)
  {
  }

  lemma AllKinds()
    ensures KindParts(TYPE_NAMES) == OBJECT_PARTS + (ARRAY_PARTS + STRING_PARTS)
  {
    var last := ["boolean", "integer", "number"];
    NoKinds(last);
    KindFirst(["string", "boolean", "integer", "number"], last, STRING_PARTS);
    KindFirst(["array", "string", "boolean", "integer", "number"], ["string", "boolean", "integer", "number"],
      ARRAY_PARTS);
    KindFirst(["object", "array", "string", "boolean", "integer", "number"],
              ["array", "string", "boolean", "integer", "number"], OBJECT_PARTS);
    KindFirst(TYPE_NAMES, ["object", "array", "string", "boolean", "integer", "number"], []);
    assert STRING_PARTS + [] == STRING_PARTS;
  }

  lemma {:induction false} NoKinds(types: seq<string>)
    requires forall i | 0 <= i < |types| :: types[i] != "object" && types[i] != "array" && types[i] != "string"
    ensures KindParts(types) == []
  {
    if types != [] { NoKinds(types[1..]); }
  }

  lemma UntypedParts(members: seq<Member>)
    requires !Has(members, "type")
    ensures SchemaParts(members) == OBJECT_PARTS + TAIL + ([Leaf("const")] + LOGIC_PARTS)
  {
    AllKinds();
    assert TYPE_NAMES[5] == "integer";
    assert OBJECT_PARTS + (ARRAY_PARTS + STRING_PARTS) + [Leaf("type"), Leaf("default")] + NUMBER_PARTS
           + [Leaf("enum"), Leaf("const")] + LOGIC_PARTS
        == OBJECT_PARTS + TAIL + ([Leaf("const")] + LOGIC_PARTS);
  }

  ghost predicate NoKey(parts: seq<Part>, key: string) {
    forall i | 0 <= i < |parts| :: PartKey(parts[i]) != key
  }

  lemma OtherKeys(key: string)
    requires key == "const" || key == "title"
    ensures NoKey(OBJECT_PARTS, key) && NoKey(ARRAY_PARTS, key) && NoKey(STRING_PARTS, key) && NoKey(NUMBER_PARTS, key)
    ensures NoKey([Leaf("type"), Leaf("default")], key) && NoKey([Leaf("enum")], key) && NoKey(LOGIC_PARTS, key)
  {
  }

  lemma {:induction false} OneMember(key: string, value: Json)
    ensures forall k :: Has([Member(key, value)], k) <==> k == key
    ensures Get([Member(key, value)], key) == value && Without([Member(key, value)], {key}) == []
    ensures At(Object([Member(key, value)]), [key]) == Found(value)
    ensures WellFormed(value) ==> WellFormed(Object([Member(key, value)]))
  {
    var ms := [Member(key, value)];
    assert ms[1..] == [] && [key][1..] == [];
  }

  // ---------------------------------------------------------------- a recursive schema

  /** An ordinary recursive schema: the property `next` is of the same kind again. */
  function Recursive(name: string): seq<Member> {
    [Member("properties", Object([Member("next", Object([RefTo([name])]))]))]
  }

  lemma {:induction false} FirstIndexIs(members: seq<Member>, parts: seq<Part>, i: nat)
    requires i < |parts| && Untouched(members, parts[..i]) && Has(members, PartKey(parts[i]))
    ensures FirstIndex(members, parts) == i
  {
    if i > 0 {
      assert parts[..i][0] == parts[0] && parts[1..][..i - 1] == parts[..i][1..];
      FirstIndexIs(members, parts[1..], i - 1);
    }
  }

  lemma {:induction false} PropertiesAmong(members: seq<Member>)
    requires forall k :: Has(members, k) <==> k == "properties"
    ensures var parts := SchemaParts(members);
      FirstIndex(members, parts) < |parts| && parts[FirstIndex(members, parts)] == Each("properties", ["properties"])
  {
    var before, after := PropertiesParts(members);
    FirstIndexIs(members, before + ([Each("properties", ["properties"])] + after), |before|);
  }

  lemma {:induction false} PropertiesParts(members: seq<Member>) returns (before: seq<Part>, after: seq<Part>)
    requires forall k :: Has(members, k) <==> k == "properties"
    ensures SchemaParts(members) == before + ([Each("properties", ["properties"])] + after)
    ensures Untouched(members, before)
  {
    UntypedParts(members);
    before, after := OBJECT_PARTS[..3], OBJECT_PARTS[4..] + (TAIL + ([Leaf("const")] + LOGIC_PARTS));
    PartedAt(OBJECT_PARTS, TAIL, [Leaf("const")] + LOGIC_PARTS, 3);
  }

  lemma PartedAt<T>(a: seq<T>, b: seq<T>, c: seq<T>, i: nat)
    requires i < |a|
    ensures a + b + c == a[..i] + ([a[i]] + (a[i + 1..] + (b + c)))
  {
  }

  lemma {:induction false} FirstThrough(members: seq<Member>, part: Part, q: Pointer)
    requires !Has(members, "definitions") && !Has(members, "$ref") && Has(members, PartKey(part))
    requires var parts := SchemaParts(members);
      FirstIndex(members, parts) < |parts| && parts[FirstIndex(members, parts)] == part
    requires FirstIn(Object(members), FirstSub(members, part)) == Some(q)
    ensures First(Object(members)) == Some(q)
  {
  }

  lemma {:induction false} PropertySub(members: seq<Member>, inner: Json, q: Pointer)
    requires Has(members, "properties") && FirstMember(Get(members, "properties")) == Some(inner)
    requires First(inner) == Some(q) && Size(inner) < Size(Object(members))
    ensures FirstIn(Object(members), FirstSub(members, Each("properties", ["properties"]))) == Some(q)
  {
  }

  lemma {:induction false} PropertyFirst(members: seq<Member>, inner: Json, q: Pointer)
    requires (forall k :: Has(members, k) <==> k == "properties")
    requires FirstMember(Get(members, "properties")) == Some(inner)
    requires First(inner) == Some(q) && Size(inner) < Size(Object(members))
    ensures First(Object(members)) == Some(q)
  {
    PropertiesAmong(members);
    PropertySub(members, inner, q);
    FirstThrough(members, Each("properties", ["properties"]), q);
  }

  lemma ReferenceFirst(p: Pointer)
    requires p != [] && forall i | 0 <= i < |p| :: '%' !in p[i]
    ensures First(Object([RefTo(p)])) == Some(p) && WellFormed(Object([RefTo(p)]))
  {
    OneMember("$ref", RefTo(p).value);
    ReferenceTarget(p);
  }

  lemma RecursiveFirst(name: string)
    requires '%' !in name
    ensures First(Object(Recursive(name))) == Some([name]) && WellFormed(Object(Recursive(name)))
  {
    var inner := Object([RefTo([name])]);
    var d := Object([Member("next", inner)]);
    ReferenceFirst([name]);
    OneMember("next", inner);
    OneMember("properties", d);
    assert Values(d)[0] == inner;
    assert Size(Opt(Recursive(name), "properties").value) < Size(Object(Recursive(name)));
    PropertyFirst(Recursive(name), inner, [name]);
  }

  /** Kept as an unknown keyword, a recursive schema cannot be asked for: its compilation asks for
      it again with nothing erased and nothing stored, and never ends. */
  lemma {:induction false} RecursiveKeyword(name: string, s: State)
    requires '%' !in name && [name] in s.free && s.tree == Object([Member(name, Object(Recursive(name)))])
    ensures Steps(Now) && WellFormed(s.tree) && Watch(Now, s, [Ask([name])], {}, -1) == Endless
    ensures forall fuel: nat :: Work(Now, s, [Ask([name])], fuel) == Deep
  {
    RecursiveFirst(name);
    OneMember(name, Object(Recursive(name)));
    assert Cycle(s, [[name]]);
    CycleEndless(s, [[name]], 0);
  }
}
