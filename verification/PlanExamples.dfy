/** A document that keeps to a plan, with a keyword that a reference asks for; and one that keeps to
    none, which is the one whose value is compiled away. */

module PlanExamples {
  import opened Wrappers
  import opened Json
  import opened Documents
  import opened Registry
  import opened Denotation
  import opened Library
  import opened CompileSteps
  import opened Tidiness
  import opened Compiler
  import opened InPlaceRuns
  import opened InPlaceValues
  import Percent
  import S = Strings
  import U = Uri

  /** What a spelled-out pointer refers to, from any URI: the same file, at the pointer. */
  lemma PointerDerived(u: U.Uri, p: Pointer)
    requires p != [] && forall i | 0 <= i < |p| :: '%' !in p[i]
    ensures U.Derive(u, "#" + S.PointerText(p)) == Ok(u.(pointer := p, identifier := ""))
  {
    var text := S.PointerText(p);
    forall i | 0 <= i < |p| ensures '%' !in S.Escaped(p)[i] { EscapeNoPercent(p[i]); }
    PrefixedNoPercent(S.Escaped(p));
    S.PointerRoundTrip(p);
    PlainFragment(text);
    ReferenceParts(text);
  }

  lemma PointerReferred(us: seq<U.Uri>, members: seq<Member>, p: Pointer)
    requires us != [] && Has(members, "$ref") && Get(members, "$ref") == RefTo(p).value
    requires p != [] && forall i | 0 <= i < |p| :: '%' !in p[i]
    ensures RefUri(us, members) == Ok(us[|us| - 1].(pointer := p, identifier := ""))
  {
    PointerDerived(us[|us| - 1], p);
  }

  // ---------------------------------------------------------------- a plan

  /** A root document that is a reference to an unknown keyword beside it. */
  function Asking(name: string, value: bool): Json { Object([RefTo([name]), Member(name, Boolean(value))]) }

  /** The keyword is the only one that references may ask for. */
  function AskingPlan(name: string, value: bool): Plan {
    var p, uri := Place("", [name]), U.Empty.(pointer := [name]);
    Plan(map[p := Expected(uri, Boolean(value), 0)], {p}, 1)
  }

  lemma AskingMembers(name: string, value: bool)
    requires name !in {"$ref", "$id", "definitions", "$schema", "title", "description", "default"}
    ensures var members := Asking(name, value).members;
      && (forall k :: Has(members, k) <==> k == "$ref" || k == name) && Get(members, "$ref") == RefTo([name]).value
      && Without(members, Consumed(members)) == [Member(name, Boolean(value))]
  {
    var members := Asking(name, value).members;
    var rest := [Member(name, Boolean(value))];
    assert members == [members[0]] + rest && members[1..] == rest;
    OneMember(name, Boolean(value));
    forall k ensures Has(members, k) <==> k == "$ref" || k == name { ReadCons(members[0], rest, k); }
    assert Without(rest, Consumed(members)) == rest + Without(rest[1..], Consumed(members));
  }

  /** There are documents that keep to a plan and ask for unknown keywords. */
  lemma AskingTidy(name: string, value: bool)
    requires Plain(name) && name !in {"$ref", "$id", "definitions", "$schema", "title", "description", "default"}
    ensures PlanOk(AskingPlan(name, value)) && SeedTidy(AskingPlan(name, value), RootSeed(Asking(name, value)))
  {
    AskingPlanOk(name, value);
    AskingSchema(name, value);
    var plan, seed := AskingPlan(name, value), RootSeed(Asking(name, value));
    forall scope, doc | Under(seed, scope, doc) ensures SchemaTidy(plan, scope, doc, BoundOf(plan, seed)) {
      AskingAlone(name, value, scope, doc);
    }
  }

  lemma AskingPlanOk(name: string, value: bool)
    requires Plain(name)
    ensures PlanOk(AskingPlan(name, value))
  {
    var plan, p, uri := AskingPlan(name, value), Place("", [name]), U.Empty.(pointer := [name]);
    PointerNoName([name], name);
    assert [name][0] == name && [S.PointerText([name])][0] != [name][0];
    forall scope, doc | Under(Seed(Keyword, [uri], Boolean(value)), scope, doc)
      ensures SchemaTidy(plan, scope, doc, 0)
    {
      assert doc == Boolean(value);
    }
    assert Covered(plan.kept, p);
    assert ExpectedOk(plan, p, plan.asked[p]);
  }

  /** A reference without definitions has no sub-schemas. */
  lemma AskingAlone(name: string, value: bool, scope: seq<U.Uri>, doc: Json)
    requires name !in {"$ref", "$id", "definitions", "$schema", "title", "description", "default"}
    requires Under(RootSeed(Asking(name, value)), scope, doc)
    ensures scope == [U.Empty] && doc == Asking(name, value)
  {
    AskingMembers(name, value);
    forall keys, sub ensures !Part(Asking(name, value).members, keys, sub) {}
  }

  lemma AskingSchema(name: string, value: bool)
    requires Plain(name) && name !in {"$ref", "$id", "definitions", "$schema", "title", "description", "default"}
    ensures SchemaTidy(AskingPlan(name, value), [U.Empty], Asking(name, value), 1)
  {
    var plan, members := AskingPlan(name, value), Asking(name, value).members;
    AskingMembers(name, value);
    PointerReferred([U.Empty], members, [name]);
    assert IdScope([U.Empty], members) == Ok([U.Empty]);
    AskingKept(name, value);
  }

  lemma AskingKept(name: string, value: bool)
    ensures LeftTidy(AskingPlan(name, value), [U.Empty], [Member(name, Boolean(value))])
  {
    var plan, p := AskingPlan(name, value), Place("", [name]);
    assert [] + [name] == [name] && [name][|[name]|..] == [];
    assert Covered(plan.kept, p);
    assert KeepTidy(plan, U.Empty, name, Boolean(value));
  }

  // ---------------------------------------------------------------- no plan

  lemma {:induction false} DefinitionUnder(uri: U.Uri, value: Json, inner: seq<Member>)
    requires uri.identifier == ""
    ensures Under(Seed(Keyword, [uri], Object(Keywords(value, inner))), Scope([uri], ["definitions", "a"]),
      Object(inner))
    ensures |Scope([uri], ["definitions", "a"])| == 1
    ensures Scope([uri], ["definitions", "a"])[0] == Extended(uri, ["definitions", "a"])
  {
    var members := Keywords(value, inner);
    KeywordsHave(value, inner);
    assert Pointed([uri]) == [uri] + Pointed([uri][1..]);
    assert IdScope([uri], members) == Ok([uri]);
    var d := Object([Member("a", Object(inner))]);
    assert Keys(d)[0] == "a" && Values(d)[0] == Object(inner) && ["definitions"] + ["a"] == ["definitions", "a"];
    assert KeyedPart(members, "definitions", ["definitions"], ["definitions", "a"], Object(inner));
    assert Counts(members, Definitions) && InGroup(members, Definitions, ["definitions", "a"], Object(inner));
    DescendsBy([uri], Object(members), ["definitions", "a"], Object(inner), Scope([uri], ["definitions", "a"]),
      Object(inner));
  }

  /** The reference in the document, seen from where the document stands. */
  lemma DocumentRefers(uri: U.Uri, name: string, title: Json)
    requires Plain(name) && uri.identifier == ""
    ensures var scope, inner := Scope([uri], ["definitions", "a"]), Object([RefTo(Spot(name))]);
      && Under(Seed(Keyword, [uri], Document(name, title)), scope, inner) && Has(inner.members, "$ref")
      && RefUri(FinalScope(scope, inner), inner.members).Ok?
      && PlaceOf(RefUri(FinalScope(scope, inner), inner.members).value) == Place(U.Location(uri), Spot(name))
  {
    var scope := Scope([uri], ["definitions", "a"]);
    DefinitionUnder(uri, Titled(title), [RefTo(Spot(name))]);
    ExtendedLocation(uri, ["definitions", "a"]);
    OneMember("$ref", RefTo(Spot(name)).value);
    ReferenceSeen(scope, [RefTo(Spot(name))], Spot(name));
  }

  lemma ReferenceSeen(scope: seq<U.Uri>, inner: seq<Member>, p: Pointer)
    requires |scope| == 1 && !Has(inner, "$id") && Has(inner, "$ref") && Get(inner, "$ref") == RefTo(p).value
    requires p != [] && forall i | 0 <= i < |p| :: '%' !in p[i]
    ensures RefUri(FinalScope(scope, Object(inner)), inner).Ok?
    ensures PlaceOf(RefUri(FinalScope(scope, Object(inner)), inner).value) == Place(U.Location(scope[0]), p)
  {
    assert IdScope(scope, inner) == Ok(scope);
    PointerReferred(scope, inner, p);
  }

  /** Whatever is foreseen, the document whose value is compiled away cannot be asked for. */
  lemma DocumentUntidy(plan: Plan, p: Place, name: string, title: Json)
    requires Plain(name) && p in plan.asked && p.pointer == [name] && plan.asked[p].doc == Document(name, title)
    ensures !PlanOk(plan)
  {
    if PlanOk(plan) {
      assert ExpectedOk(plan, p, plan.asked[p]);
      DocumentRefers(plan.asked[p].uri, name, title);
      RefersElsewhere(plan, p, Scope([plan.asked[p].uri], ["definitions", "a"]), Object([RefTo(Spot(name))]));
      assert false;
    }
  }
}
