/** A value that is compiled away: what a keyword says, and what is read of it when a reference
    inside it leads back into it. */

module InPlaceValues {
  import opened Wrappers
  import opened Json
  import opened SchemaGraph
  import opened Documents
  import opened Registry
  import opened Denotation
  import opened CompileSteps
  import opened Evaluation
  import opened Meaning
  import opened DocumentMeaning
  import opened KeywordLaws
  import opened InPlace
  import opened InPlaceRuns
  import S = Strings
  import U = Uri

  // ---------------------------------------------------------------- a value that is compiled away

  function Top(name: string): Pointer { [name] }

  function Spot(name: string): Pointer { [name, "const"] }

  function Inner(name: string): Pointer { [name, "definitions", "a"] }

  /** A value that could be read as a schema itself. */
  function Titled(title: Json): Json { Object([Member("title", title)]) }

  /** The keywords of a schema that admits one value only, and has a definition beside it. */
  function Keywords(value: Json, inner: seq<Member>): seq<Member> {
    [Member("const", value), Member("definitions", Object([Member("a", Object(inner))]))]
  }

  function Tree(name: string, keywords: seq<Member>): Json { Object([Member(name, Object(keywords))]) }

  lemma {:induction false} KeywordsHave(value: Json, inner: seq<Member>)
    ensures var ms := Keywords(value, inner);
      && (forall k :: Has(ms, k) <==> k == "const" || k == "definitions")
      && Get(ms, "const") == value && Get(ms, "definitions") == Object([Member("a", Object(inner))])
      && Without(ms, {"definitions"}) == [Member("const", value)]
      && (forall v :: Put(ms, "const", v) == Keywords(v, inner))
      && (WellFormed(value) && WellFormed(Object(inner)) ==> WellFormed(Object(ms)))
  {
    var ms := Keywords(value, inner);
    var rest := [Member("definitions", Object([Member("a", Object(inner))]))];
    OneMember("a", Object(inner));
    OneMember("definitions", rest[0].value);
    OneMember("const", value);
    assert ms == [ms[0]] + rest && ms[1..] == rest;
    forall k ensures Has(ms, k) <==> k == "const" || k == "definitions" { ReadCons(ms[0], rest, k); }
    ReadCons(ms[0], rest, "definitions");
  }

  lemma {:induction false} SecondAt(first: Member, key: string, value: Json, p: Pointer, w: Json)
    requires StringLess(first.key, key)
    ensures At(Object([first, Member(key, value)]), [key] + p) == At(value, p)
    ensures ReplaceAt(Object([first, Member(key, value)]), [key] + p, w) ==
      Object([first, Member(key, ReplaceAt(value, p, w))])
  {
    var ms, v := [first, Member(key, value)], ReplaceAt(value, p, w);
    StringLessTrichotomy(first.key, key);
    assert ([key] + p)[1..] == p && ms[1..] == [Member(key, value)];
    assert Put([Member(key, value)], key, v) == [Member(key, v)];
    assert Put(ms, key, v) == [first] + [Member(key, v)];
  }

  lemma {:induction false} OnlyAt(key: string, value: Json, p: Pointer, w: Json)
    ensures At(Object([Member(key, value)]), [key] + p) == At(value, p)
    ensures ReplaceAt(Object([Member(key, value)]), [key] + p, w) == Object([Member(key, ReplaceAt(value, p, w))])
  {
    OneMember(key, value);
    assert ([key] + p)[1..] == p;
  }

  lemma TopSeen(name: string, keywords: seq<Member>, ms: seq<Member>)
    ensures At(Tree(name, keywords), Top(name)) == Found(Object(keywords))
    ensures ReplaceAt(Tree(name, keywords), Top(name), Object(ms)) == Tree(name, ms)
  {
    OnlyAt(name, Object(keywords), [], Object(ms));
    assert [name] + [] == [name];
  }

  lemma {:induction false} SpotSeen(name: string, value: Json, inner: seq<Member>, v: Json)
    ensures At(Tree(name, Keywords(value, inner)), Spot(name)) == Found(value)
    ensures ReplaceAt(Tree(name, Keywords(value, inner)), Spot(name), v) == Tree(name, Keywords(v, inner))
  {
    KeywordsHave(value, inner);
    OnlyAt(name, Object(Keywords(value, inner)), ["const"], v);
    assert [name] + ["const"] == Spot(name) && ["const"][1..] == [];
  }

  lemma InnerSeen(name: string, value: Json, inner: seq<Member>, ms: seq<Member>)
    ensures At(Tree(name, Keywords(value, inner)), Inner(name)) == Found(Object(inner))
    ensures ReplaceAt(Tree(name, Keywords(value, inner)), Inner(name), Object(ms)) == Tree(name, Keywords(value, ms))
  {
    assert StringLess("const", "definitions");
    OnlyAt("a", Object(inner), [], Object(ms));
    assert ["a"] + [] == ["a"] && ["definitions"] + ["a"] == ["definitions", "a"];
    SecondAt(Member("const", value), "definitions", Object([Member("a", Object(inner))]), ["a"], Object(ms));
    OnlyAt(name, Object(Keywords(value, inner)), ["definitions", "a"], Object(ms));
    assert [name] + ["definitions", "a"] == Inner(name);
  }

  lemma PointerNoName(p: Pointer, name: string)
    requires p != [] && (name != "" ==> name[0] != '/')
    ensures S.PointerText(p) != name
  {
    S.PointerRoundTrip(p);
  }

  /** The keywords of a schema, in the order in which they are read. */
  lemma ReadOrder(members: seq<Member>, key: string) returns (before: seq<Part>, after: seq<Part>)
    requires (forall k :: Has(members, k) <==> k == key) && (key == "const" || key == "title")
    ensures SchemaParts(members) == before + ([Leaf("const")] + after) && NoKey(before, key) && NoKey(after, key)
  {
    UntypedParts(members);
    OtherKeys(key);
    before, after := OBJECT_PARTS + TAIL, LOGIC_PARTS;
    NoKeyJoin(ARRAY_PARTS, STRING_PARTS, key);
    NoKeyJoin(ARRAY_PARTS + STRING_PARTS, [Leaf("type"), Leaf("default")], key);
    NoKeyJoin(ARRAY_PARTS + STRING_PARTS + [Leaf("type"), Leaf("default")], NUMBER_PARTS, key);
    NoKeyJoin(ARRAY_PARTS + STRING_PARTS + [Leaf("type"), Leaf("default")] + NUMBER_PARTS, [Leaf("enum")], key);
    NoKeyJoin(OBJECT_PARTS, TAIL, key);
  }

  lemma NoKeyJoin(a: seq<Part>, b: seq<Part>, key: string)
    requires NoKey(a, key) && NoKey(b, key)
    ensures NoKey(a + b, key)
  {
  }

  lemma PartsStep(step: Step, s: State, at: Pointer, members: seq<Member>, key: string)
    returns (before: seq<Part>, after: seq<Part>)
    requires Compiles(step) && At(s.tree, at) == Found(Object(members)) && (key == "const" || key == "title")
    requires forall k :: Has(members, k) <==> k == key
    ensures step(s, Parts(at, at)) == Call(Reads(at, at, before + ([Leaf("const")] + after)))
    ensures NoKey(before, key) && NoKey(after, key)
  {
    before, after := ReadOrder(members, key);
    assert Look(s, Parts(at, at));
  }

  /** One keyword and no other. */
  ghost predicate Only(members: seq<Member>, key: string) {
    (forall k :: Has(members, k) <==> k == key) && Without(members, {key}) == []
  }

  lemma TitleUntouched(members: seq<Member>, before: seq<Part>, after: seq<Part>)
    requires NoKey(before, "title") && NoKey(after, "title") && forall k :: Has(members, k) <==> k == "title"
    ensures Untouched(members, before + ([Leaf("const")] + after))
  {
  }

  lemma {:induction false} TitleParts(step: Step, s: State, at: Pointer, members: seq<Member>, fuel: nat)
    requires Compiles(step) && WellFormed(s.tree) && At(s.tree, at) == Found(Object(members)) && Only(members, "title")
    requires fuel > 0
    ensures RunsBy(step, s, [Parts(at, at)], s, fuel)
  {
    var before, after := PartsStep(step, s, at, members, "title");
    var parts := before + ([Leaf("const")] + after);
    TitleUntouched(members, before, after);
    PassedOver(step, s, at, at, parts, fuel - 1);
    RunsCall(step, s, Parts(at, at), Reads(at, at, parts), s, fuel);
  }

  lemma {:induction false} ErasedAt(s: State, at: Pointer, members: seq<Member>, key: string, tree: Json)
    requires At(s.tree, at) == Found(Object(members))
    requires Has(members, key) ==> ReplaceAt(s.tree, at, Object(Without(members, {key}))) == tree
    requires !Has(members, key) ==> tree == s.tree
    ensures Erased(s, at, key) == s.(tree := tree)
  {
  }

  lemma {:induction false} TitleTrimmed(s: State, at: Pointer, members: seq<Member>, tree: Json)
    requires At(s.tree, at) == Found(Object(members)) && Only(members, "title")
    requires ReplaceAt(s.tree, at, Object([])) == tree && At(tree, at) == Found(Object([]))
    ensures Trimmed(s, at) == s.(tree := tree)
  {
    ErasedAt(s, at, members, "$schema", s.tree);
    ErasedAt(s, at, members, "title", tree);
    ErasedAt(s.(tree := tree), at, [], "description", tree);
  }

  /** A value with a title only is visited as a schema, and its title is erased. */
  lemma {:induction false} ValueVisited(step: Step, s: State, at: Pointer, members: seq<Member>, tree: Json, fuel: nat)
    requires Compiles(step) && WellFormed(s.tree) && At(s.tree, at) == Found(Object(members)) && Only(members, "title")
    requires at in s.free && fuel >= 2
    requires ReplaceAt(s.tree, at, Object([])) == tree && At(tree, at) == Found(Object([]))
    ensures WellFormed(tree) && RunsBy(step, s, [Visit(at, at)], s.(tree := tree, free := s.free - {at}), fuel)
  {
    AbsentRead(step, s, at, at, DEFINITIONS, fuel - 1);
    TitleParts(step, s, at, members, fuel - 1);
    TitleTrimmed(s, at, members, tree);
    VisitRuns(step, s, at, at, s, s, fuel);
  }

  /** A schema that is erased completely has nothing left to trim. */
  lemma {:induction false} EmptyTrimmed(s: State, at: Pointer)
    requires At(s.tree, at) == Found(Object([]))
    ensures Trimmed(s, at) == s
  {
    ErasedAt(s, at, [], "$schema", s.tree);
    ErasedAt(s, at, [], "title", s.tree);
    ErasedAt(s, at, [], "description", s.tree);
  }

  lemma {:induction false} ReferenceErased(t: State, at: Pointer, members: seq<Member>, tree: Json)
    requires At(t.tree, at) == Found(Object(members)) && Only(members, "$ref")
    requires ReplaceAt(t.tree, at, Object([])) == tree && At(tree, at) == Found(Object([]))
    ensures Erased(Erased(t, at, "$ref"), at, "default") == t.(tree := tree)
  {
    ErasedAt(t, at, members, "$ref", tree);
    ErasedAt(t.(tree := tree), at, [], "default", tree);
  }

  /** A definition that is a reference: what it asks for is done, and the reference is erased. */
  lemma {:induction false} ReferenceVisited(step: Step, s: State, at: Pointer, members: seq<Member>, p: Pointer,
        t: State, tree: Json,
        fuel: nat)
    requires Compiles(step) && WellFormed(s.tree) && At(s.tree, at) == Found(Object(members)) && fuel >= 2
    requires Only(members, "$ref") && Target(members) == Some(p) && RunsBy(step, s, [Ask(p)], t, fuel - 2)
    requires WellFormed(t.tree) && At(t.tree, at) == Found(Object(members)) && at in t.free
    requires ReplaceAt(t.tree, at, Object([])) == tree && At(tree, at) == Found(Object([]))
    ensures WellFormed(tree) && RunsBy(step, s, [Visit(at, at)], t.(tree := tree, free := t.free - {at}), fuel)
  {
    ReferenceErased(t, at, members, tree);
    AbsentRead(step, s, at, at, DEFINITIONS, fuel - 1);
    ReferenceRuns(step, s, at, at, members, p, t, fuel - 1);
    EmptyTrimmed(t.(tree := tree), at);
    VisitRuns(step, s, at, at, s, t.(tree := tree), fuel);
  }

  /** The value is read when nothing else is left. */
  lemma {:induction false} ConstRead(step: Step, s: State, at: Pointer, value: Json, tree: Json, fuel: nat)
    requires Compiles(step) && WellFormed(s.tree) && At(s.tree, at) == Found(Object([Member("const", value)]))
    requires ReplaceAt(s.tree, at, Object([])) == tree && At(tree, at) == Found(Object([])) && fuel > 0
    ensures WellFormed(tree)
    ensures RunsBy(step, s, [Parts(at, at)], s.(tree := tree, log := s.log + [Note(at, "const", value)]), fuel)
  {
    var members := [Member("const", value)];
    OneMember("const", value);
    ConstNoted(step, s, at, members, tree, fuel - 1);
    var before, after := PartsStep(step, s, at, members, "const");
    ConstAmong(step, s, at, before, after, s.(tree := tree, log := s.log + [Note(at, "const", value)]), fuel);
  }

  lemma {:induction false} ConstNoted(step: Step, s: State, at: Pointer, members: seq<Member>, tree: Json, fuel: nat)
    requires Compiles(step) && WellFormed(s.tree) && At(s.tree, at) == Found(Object(members)) && Only(members, "const")
    requires ReplaceAt(s.tree, at, Object([])) == tree
    ensures WellFormed(tree)
    ensures RunsBy(step, s, [Read(at, at, Leaf("const"))],
      s.(tree := tree, log := s.log + [Note(at, "const", Get(members, "const"))]), fuel)
  {
    ErasedShrinks(s, at, "const");
    ErasedAt(s, at, members, "const", tree);
    assert Look(s, Read(at, at, Leaf("const")));
    RunsNext(step, s, Read(at, at, Leaf("const")),
      s.(tree := tree, log := s.log + [Note(at, "const", Get(members, "const"))]), fuel);
  }

  lemma ConstAmong(step: Step, s: State, at: Pointer, before: seq<Part>, after: seq<Part>, t: State, fuel: nat)
    requires Compiles(step) && fuel > 0 && NoKey(before, "const") && NoKey(after, "const")
    requires forall k :: Has(MembersAt(s.tree, at), k) ==> k == "const"
    requires MembersAt(t.tree, at) == [] && WellFormed(t.tree)
    requires step(s, Parts(at, at)) == Call(Reads(at, at, before + ([Leaf("const")] + after)))
    requires RunsBy(step, s, [Read(at, at, Leaf("const"))], t, fuel - 1)
    ensures RunsBy(step, s, [Parts(at, at)], t, fuel)
  {
    var parts := before + ([Leaf("const")] + after);
    assert parts[..|before|] == before && parts[|before| + 1..] == after && parts[|before|] == Leaf("const");
    OneRead(step, s, at, at, parts, |before|, t, fuel - 1);
    RunsCall(step, s, Parts(at, at), Reads(at, at, parts), t, fuel);
  }

  // ---------------------------------------------------------------- the whole document

  /** The document: a value under `const`, and a definition with a reference to its place. */
  function Document(name: string, title: Json): Json {
    Object(Keywords(Titled(title), [RefTo(Spot(name))]))
  }

  /** The unknown keywords while it is compiled: as it stands, with the title gone, with the
      reference gone, with the value alone, and with nothing left; and the keywords in them. */
  datatype Stages = Stages(whole: Json, untitled: Json, unreferred: Json, valued: Json, empty: Json,
    value: seq<Member>, inner: seq<Member>, keywords: seq<Member>, rest: seq<Member>)

  /** What is seen at the three places, and what replacing it there leads to. */
  ghost predicate Staged(name: string, z: Stages) {
    && At(z.whole, Spot(name)) == Found(Object(z.value)) && Only(z.value, "title")
    && ReplaceAt(z.whole, Spot(name), Object([])) == z.untitled && At(z.untitled, Spot(name)) == Found(Object([]))
    && At(z.whole, Inner(name)) == Found(Object(z.inner)) && At(z.untitled, Inner(name)) == Found(Object(z.inner))
    && Only(z.inner, "$ref") && Target(z.inner) == Some(Spot(name))
    && ReplaceAt(z.untitled, Inner(name), Object([])) == z.unreferred
    && At(z.unreferred, Inner(name)) == Found(Object([]))
  }

  ghost predicate StagedTop(name: string, z: Stages) {
    && At(z.whole, Top(name)) == Found(Object(z.keywords)) && At(z.unreferred, Top(name)) == Found(Object(z.rest))
    && Sub(z.keywords, Top(name), Top(name), DEFINITIONS)
       == [Visit(Inner(name), Inner(name)), Cut(Top(name), "definitions")]
    && Has(z.rest, "definitions")
    && ReplaceAt(z.unreferred, Top(name), Object(Without(z.rest, {"definitions"}))) == z.valued
    && At(z.valued, Top(name)) == Found(Object([Member("const", Object([]))]))
    && ReplaceAt(z.valued, Top(name), Object([])) == z.empty && At(z.empty, Top(name)) == Found(Object([]))
  }

  /** No name in the file is a pointer. */
  ghost predicate Unpointed(tree: Json) {
    forall p: Pointer | p != [] :: !Has(MembersAt(tree, []), S.PointerText(p))
  }

  /** The reference is followed to the value, whose title goes, and is erased. */
  lemma DefinitionVisited(step: Step, s: State, name: string, z: Stages, fuel: nat)
    requires Compiles(step) && WellFormed(s.tree) && Staged(name, z) && s.tree == z.whole && Unpointed(z.untitled)
    requires Spot(name) in s.free && Inner(name) in s.free && fuel >= 5
    ensures WellFormed(z.unreferred) && RunsBy(step, s, [Visit(Inner(name), Inner(name))],
      s.(tree := z.unreferred, free := s.free - {Spot(name)} - {Inner(name)}), fuel)
  {
    var t := s.(tree := z.untitled, free := s.free - {Spot(name)});
    ValueAsked(step, s, Spot(name), z.value, t, fuel - 2);
    ReferenceVisited(step, s, Inner(name), z.inner, Spot(name), t, z.unreferred, fuel);
  }

  lemma {:induction false} ValueAsked(step: Step, s: State, p: Pointer, members: seq<Member>, t: State, fuel: nat)
    requires Compiles(step) && WellFormed(s.tree) && At(s.tree, p) == Found(Object(members)) && Only(members, "title")
    requires p != [] && p in s.free && fuel >= 3 && Unpointed(t.tree)
    requires ReplaceAt(s.tree, p, Object([])) == t.tree && At(t.tree, p) == Found(Object([]))
    requires t == s.(tree := t.tree, free := s.free - {p})
    ensures WellFormed(t.tree) && RunsBy(step, s, [Ask(p)], t, fuel)
  {
    ValueVisited(step, s, p, members, t.tree, fuel - 1);
    AskRuns(step, s, p, t, fuel);
  }

  /** The definitions are read before the value. */
  lemma DefinitionsRead(step: Step, s: State, name: string, z: Stages, fuel: nat)
    requires Compiles(step) && WellFormed(s.tree) && s.tree == z.whole && StagedTop(name, z) && WellFormed(z.unreferred)
    requires RunsBy(step, s, [Visit(Inner(name), Inner(name))],
      s.(tree := z.unreferred, free := s.free - {Spot(name)} - {Inner(name)}), fuel)
    ensures WellFormed(z.valued) && RunsBy(step, s, [Read(Top(name), Top(name), DEFINITIONS)],
      s.(tree := z.valued, free := s.free - {Spot(name)} - {Inner(name)}), fuel)
  {
    var t := s.(tree := z.unreferred, free := s.free - {Spot(name)} - {Inner(name)});
    ErasedAt(t, Top(name), z.rest, "definitions", z.valued);
    CutRuns(step, t, Top(name), "definitions", fuel);
    RunsTwo(step, s, Visit(Inner(name), Inner(name)), t, Cut(Top(name), "definitions"), t.(tree := z.valued), fuel);
    DefinitionsStep(step, s, name, z);
    RunsMore(step, s, Read(Top(name), Top(name), DEFINITIONS),
      [Visit(Inner(name), Inner(name)), Cut(Top(name), "definitions")], t.(tree := z.valued), fuel);
  }

  lemma DefinitionsStep(step: Step, s: State, name: string, z: Stages)
    requires Compiles(step) && s.tree == z.whole && StagedTop(name, z)
    ensures step(s, Read(Top(name), Top(name), DEFINITIONS))
      == More([Visit(Inner(name), Inner(name)), Cut(Top(name), "definitions")])
  {
    assert Look(s, Read(Top(name), Top(name), DEFINITIONS));
  }

  /** A keyword that leaves nothing is asked for. */
  lemma {:induction false} AskVisited(step: Step, s: State, p: Pointer, t: State, u: State, fuel: nat)
    requires Compiles(step) && fuel >= 2 && At(s.tree, p).Found? && At(s.tree, p).json.Object?
    requires p != [] && p in s.free && p in u.free && Unpointed(u.tree) && At(u.tree, p) == Found(Object([]))
    requires RunsBy(step, s, [Read(p, p, DEFINITIONS)], t, fuel - 2)
    requires RunsBy(step, t, [Parts(p, p)], u, fuel - 2) && WellFormed(u.tree)
    ensures RunsBy(step, s, [Ask(p)], u.(free := u.free - {p}), fuel)
  {
    EmptyTrimmed(u, p);
    VisitRuns(step, s, p, p, t, u, fuel - 1);
    AskRuns(step, s, p, u.(free := u.free - {p}), fuel);
  }

  /** Asking for the document: the log says what was read as its value. */
  lemma DocumentAsked(step: Step, s: State, name: string, z: Stages, t: State, u: State, fuel: nat)
    requires Compiles(step) && WellFormed(s.tree) && s.tree == z.whole && WellFormed(z.valued) && StagedTop(name, z)
    requires Top(name) in s.free && Unpointed(z.empty) && fuel >= 3
    requires t == s.(tree := z.valued, free := s.free - {Spot(name)} - {Inner(name)})
    requires u == t.(tree := z.empty, log := s.log + [Note(Top(name), "const", Object([]))])
    requires RunsBy(step, s, [Read(Top(name), Top(name), DEFINITIONS)], t, fuel - 2)
    ensures RunsBy(step, s, [Ask(Top(name))], u.(free := u.free - {Top(name)}), fuel)
  {
    assert Top(name) != Spot(name) && Top(name) != Inner(name);
    ConstAsked(step, s, Top(name), t, u, fuel);
  }

  lemma {:induction false} ConstAsked(step: Step, s: State, p: Pointer, t: State, u: State, fuel: nat)
    requires Compiles(step) && fuel >= 3 && At(s.tree, p).Found? && At(s.tree, p).json.Object?
    requires p != [] && p in s.free && p in t.free && Unpointed(u.tree) && At(u.tree, p) == Found(Object([]))
    requires WellFormed(t.tree) && At(t.tree, p) == Found(Object([Member("const", Object([]))]))
    requires ReplaceAt(t.tree, p, Object([])) == u.tree
    requires u == t.(tree := u.tree, log := t.log + [Note(p, "const", Object([]))])
    requires RunsBy(step, s, [Read(p, p, DEFINITIONS)], t, fuel - 2)
    ensures RunsBy(step, s, [Ask(p)], u.(free := u.free - {p}), fuel)
  {
    ConstRead(step, t, p, Object([]), u.tree, fuel - 2);
    AskVisited(step, s, p, t, u, fuel);
  }

  /** A name that needs no escaping in a reference. */
  ghost predicate Plain(name: string) { '%' !in name && (name != "" ==> name[0] != '/') }

  lemma DefinitionsSub(name: string, value: Json, inner: seq<Member>)
    ensures Sub(Keywords(value, inner), Top(name), Top(name), DEFINITIONS)
      == [Visit(Inner(name), Inner(name)), Cut(Top(name), "definitions")]
  {
    KeywordsHave(value, inner);
    var d := Object([Member("a", Object(inner))]);
    assert Keys(d) == ["a"] && Values(d) == [Object(inner)];
    assert SchemaKeys("definitions", ["a"], Values(d)) == ["a"] by { assert ["a"][1..] == [] && ["a"] + [] == ["a"]; }
    assert [name] + ["definitions"] + ["a"] == Inner(name);
    assert Visits([name] + ["definitions"], [name] + ["definitions"], ["a"]) == [Visit(Inner(name), Inner(name))];
  }

  lemma TreeUnpointed(name: string, keywords: seq<Member>)
    requires Plain(name)
    ensures Unpointed(Tree(name, keywords))
  {
    OneMember(name, Object(keywords));
    forall p: Pointer | p != [] ensures !Has(MembersAt(Tree(name, keywords), []), S.PointerText(p)) {
      PointerNoName(p, name);
    }
  }

  /** These are the stages of the document. */
  lemma DocumentStages(name: string, title: Json) returns (z: Stages)
    requires Plain(name) && WellFormed(title)
    ensures Staged(name, z) && StagedTop(name, z) && Unpointed(z.untitled) && Unpointed(z.empty)
    ensures z.whole == Tree(name, Keywords(Titled(title), [RefTo(Spot(name))])) && WellFormed(z.whole)
  {
    var value, inner := [Member("title", title)], [RefTo(Spot(name))];
    var keywords, rest := Keywords(Object(value), inner), Keywords(Object([]), []);
    z := Stages(Tree(name, keywords), Tree(name, Keywords(Object([]), inner)), Tree(name, rest),
      Tree(name, [Member("const", Object([]))]), Tree(name, []), value, inner, keywords, rest);
    StagesBelow(name, title, z);
    StagesTop(name, title, z);
    TreeUnpointed(name, Keywords(Object([]), inner));
    TreeUnpointed(name, []);
    OneMember("title", title);
    OneMember("$ref", RefTo(Spot(name)).value);
    KeywordsHave(Object(value), inner);
    OneMember(name, Object(keywords));
  }

  lemma StagesBelow(name: string, title: Json, z: Stages)
    requires Plain(name) && z.value == [Member("title", title)] && z.inner == [RefTo(Spot(name))]
    requires z.whole == Tree(name, Keywords(Object(z.value), z.inner))
    requires z.untitled == Tree(name, Keywords(Object([]), z.inner))
    requires z.unreferred == Tree(name, Keywords(Object([]), []))
    ensures Staged(name, z)
  {
    StagesValue(name, z);
    StagesInner(name, z);
    StagesOnly(name, title, z);
  }

  lemma StagesOnly(name: string, title: Json, z: Stages)
    requires Plain(name) && z.value == [Member("title", title)] && z.inner == [RefTo(Spot(name))]
    ensures Only(z.value, "title") && Only(z.inner, "$ref") && Target(z.inner) == Some(Spot(name))
  {
    OneMember("title", title);
    OneMember("$ref", RefTo(Spot(name)).value);
    ReferenceTarget(Spot(name));
  }

  lemma StagesValue(name: string, z: Stages)
    requires z.whole == Tree(name, Keywords(Object(z.value), z.inner))
    requires z.untitled == Tree(name, Keywords(Object([]), z.inner))
    ensures At(z.whole, Spot(name)) == Found(Object(z.value))
    ensures ReplaceAt(z.whole, Spot(name), Object([])) == z.untitled
    ensures At(z.untitled, Spot(name)) == Found(Object([]))
  {
    SpotSeen(name, Object(z.value), z.inner, Object([]));
    SpotSeen(name, Object([]), z.inner, Object([]));
  }

  lemma StagesInner(name: string, z: Stages)
    requires z.whole == Tree(name, Keywords(Object(z.value), z.inner))
    requires z.untitled == Tree(name, Keywords(Object([]), z.inner))
    requires z.unreferred == Tree(name, Keywords(Object([]), []))
    ensures At(z.whole, Inner(name)) == Found(Object(z.inner)) && At(z.untitled, Inner(name)) == Found(Object(z.inner))
    ensures ReplaceAt(z.untitled, Inner(name), Object([])) == z.unreferred
    ensures At(z.unreferred, Inner(name)) == Found(Object([]))
  {
    InnerSeen(name, Object(z.value), z.inner, []);
    InnerSeen(name, Object([]), z.inner, []);
    InnerSeen(name, Object([]), [], []);
  }

  lemma StagesTop(name: string, title: Json, z: Stages)
    requires z.keywords == Keywords(Titled(title), [RefTo(Spot(name))]) && z.rest == Keywords(Object([]), [])
    requires z.whole == Tree(name, z.keywords) && z.unreferred == Tree(name, z.rest)
    requires z.valued == Tree(name, [Member("const", Object([]))]) && z.empty == Tree(name, [])
    ensures StagedTop(name, z)
  {
    KeywordsHave(Object([]), []);
    TopSeen(name, z.keywords, []);
    TopSeen(name, z.rest, [Member("const", Object([]))]);
    TopSeen(name, [Member("const", Object([]))], []);
    TopSeen(name, [], []);
    DefinitionsSub(name, Titled(title), [RefTo(Spot(name))]);
  }

  // ---------------------------------------------------------------- what was compiled

  /** The value that was read last for a keyword under a URI. */
  function LastNote(log: seq<Note>, uri: Pointer, key: string): Option<Json> {
    if log == [] then None
    else
      var last := log[|log| - 1];
      if last.uri == uri && last.key == key then Some(last.value) else LastNote(log[..|log| - 1], uri, key)
  }

  /** The keywords as they were read under a URI. */
  function AsRead(members: seq<Member>, log: seq<Note>, uri: Pointer): (r: seq<Member>)
    ensures |r| == |members|
  {
    seq(|members|, i requires 0 <= i < |members| =>
      Member(members[i].key, LastNote(log, uri, members[i].key).GetOr(members[i].value)))
  }

  lemma NotedAsRead(name: string, title: Json)
    ensures AsRead(Document(name, title).members, [Note(Top(name), "const", Object([]))], Top(name))
      == Keywords(Object([]), [RefTo(Spot(name))])
  {
    var log := [Note(Top(name), "const", Object([]))];
    assert log[..0] == [] && log[0].key == "const";
    assert LastNote(log, Top(name), "const") == Some(Object([])) && LastNote(log, Top(name), "definitions") == None;
  }

  lemma {:induction false} ConstVerdict(refs: Oracle, k: Checks, uris: seq<U.Uri>, value: Json, inner: seq<Member>)
    ensures DocSat(refs, k, uris, Object(Keywords(value, inner)), Object([])) <==> Same(value, Object([]))
  {
    KeywordsHave(value, inner);
    ValueLaw(refs, k, uris, Keywords(value, inner), "const", Object([]));
  }

  /** A keyword whose definition refers to the value of its `const` is read, when a reference asks
      for it, as a document that admits the empty object. The document admits one value only, and
      that is another. */
  lemma {:induction false} ConstEmptied(name: string, title: Json, s: State, fuel: nat, refs: Oracle, k: Checks,
        uris: seq<U.Uri>)
    requires WellFormed(title) && Plain(name) && PutPath(Null, [], name, Document(name, title)) == Some(s.tree)
    requires Top(name) in s.free && Spot(name) in s.free && Inner(name) in s.free && s.log == [] && fuel >= 7
    ensures Steps(Now) && WellFormed(s.tree) && Work(Now, s, [Ask(Top(name))], fuel).Made?
    ensures var log := Work(Now, s, [Ask(Top(name))], fuel).state.log;
      && DocSat(refs, k, uris, Object(AsRead(Document(name, title).members, log, Top(name))), Object([]))
      && !DocSat(refs, k, uris, Document(name, title), Object([]))
  {
    var inner := [RefTo(Spot(name))];
    NowCompiles();
    DocumentLogs(Now, s, name, title, fuel);
    NotedAsRead(name, title);
    ConstVerdict(refs, k, uris, Titled(title), inner);
    ConstVerdict(refs, k, uris, Object([]), inner);
  }

  lemma {:induction false} DocumentLogs(step: Step, s: State, name: string, title: Json, fuel: nat)
    requires Compiles(step) && WellFormed(title) && Plain(name) && s.log == [] && fuel >= 7
    requires PutPath(Null, [], name, Document(name, title)) == Some(s.tree)
    requires Top(name) in s.free && Spot(name) in s.free && Inner(name) in s.free
    ensures WellFormed(s.tree) && Work(step, s, [Ask(Top(name))], fuel).Made?
    ensures Work(step, s, [Ask(Top(name))], fuel).state.log == [Note(Top(name), "const", Object([]))]
  {
    var z := DocumentStages(name, title);
    assert Put([], name, Document(name, title)) == [Member(name, Document(name, title))];
    StagesLog(step, s, name, z, fuel);
  }

  lemma {:induction false} StagesLog(step: Step, s: State, name: string, z: Stages, fuel: nat)
    requires Compiles(step) && WellFormed(s.tree) && Staged(name, z) && StagedTop(name, z) && s.tree == z.whole
    requires Top(name) in s.free && Spot(name) in s.free && Inner(name) in s.free && s.log == [] && fuel >= 7
    requires Unpointed(z.untitled) && Unpointed(z.empty)
    ensures Work(step, s, [Ask(Top(name))], fuel).Made?
    ensures Work(step, s, [Ask(Top(name))], fuel).state.log == [Note(Top(name), "const", Object([]))]
  {
    var t := s.(tree := z.valued, free := s.free - {Spot(name)} - {Inner(name)});
    var u := t.(tree := z.empty, log := s.log + [Note(Top(name), "const", Object([]))]);
    StagesRun(step, s, name, z, t, u, fuel);
    assert [] + [Note(Top(name), "const", Object([]))] == [Note(Top(name), "const", Object([]))];
  }

  lemma StagesRun(step: Step, s: State, name: string, z: Stages, t: State, u: State, fuel: nat)
    requires Compiles(step) && WellFormed(s.tree) && Staged(name, z) && StagedTop(name, z) && s.tree == z.whole
    requires Top(name) in s.free && Spot(name) in s.free && Inner(name) in s.free && fuel >= 7
    requires Unpointed(z.untitled) && Unpointed(z.empty)
    requires t == s.(tree := z.valued, free := s.free - {Spot(name)} - {Inner(name)})
    requires u == t.(tree := z.empty, log := s.log + [Note(Top(name), "const", Object([]))])
    ensures RunsBy(step, s, [Ask(Top(name))], u.(free := u.free - {Top(name)}), fuel)
  {
    DefinitionVisited(step, s, name, z, fuel - 2);
    DefinitionsRead(step, s, name, z, fuel - 2);
    DocumentAsked(step, s, name, z, t, u, fuel);
  }
}
