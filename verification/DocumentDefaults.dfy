/** Defaults written in a document: a property that an object lacks is added with the default that
    the document gives it. */

module DocumentDefaults {
  import opened Wrappers
  import opened Json
  import opened SchemaGraph
  import opened Documents
  import opened Registry
  import opened Denotation
  import opened Evaluation
  import opened CompiledMeaning
  import opened Defaults
  import Meaning
  import U = Uri

  /** A schema compiled from a document with a `default` gives it; beside a `$ref` only to a schema
      that is not a bare boolean. */
  lemma {:induction false} DenotedDefault(reg: Registry, scope: seq<U.Uri>, members: seq<Member>, n: Id, d: Json)
    requires Denotes(reg, scope, Object(members), n) && Has(members, "default") && Get(members, "default") == d
    requires !reg.nodes[n].BooleanSchema?
    ensures Gives(reg.nodes, n, d)
  {
    assert Hops(reg.nodes, n, 0) == Some(n);
    if Has(members, "$ref") {
      ReferenceDefault(reg, IdScope(scope, members).value, members, n, d);
    }
    assert GivesAfter(reg.nodes, n, 0, d);
  }

  lemma {:induction false} ReferenceDefault(reg: Registry, us: seq<U.Uri>, members: seq<Member>, n: Id, d: Json)
    requires n < |reg.nodes| && RefDenotes(reg, us, members, n, |reg.sources|) && !reg.nodes[n].BooleanSchema?
    requires Has(members, "default") && Get(members, "default") == d
    ensures Own(reg.nodes[n]) == d
  {
  }

  /** A document without a reference gives its own default, or null. */
  lemma {:induction false} PlainDefault(reg: Registry, scope: seq<U.Uri>, members: seq<Member>, n: Id)
    requires Denotes(reg, scope, Object(members), n) && !Has(members, "$ref")
    ensures reg.nodes[n].TypeSchema?
    ensures Own(reg.nodes[n]) == if Has(members, "default") then Get(members, "default") else Null
  {
  }

  /** The listed properties of a compiled document are those of its table, in order. */
  lemma {:induction false} ListedProperties(reg: Registry, us: seq<U.Uri>, members: seq<Member>, n: Id,
        table: seq<Member>, i: nat)
    requires n < |reg.nodes| && reg.nodes[n].TypeSchema? && TypeDenotes(reg, us, members, reg.nodes[n])
    requires Has(members, "properties") && Get(members, "properties") == Object(table) && i < |table|
    requires "object" in TypesListed(members) && multiset(TypesListed(members))["object"] < 2
    ensures reg.nodes[n].table.objectType.Some?
    ensures var ps := reg.nodes[n].table.objectType.value.properties;
      && |ps| == |table| && ps[i].name == table[i].key
      && Denotes(reg, Scope(us, ["properties", table[i].key]), table[i].value, ps[i].schema)
  {
    TableParts(reg, us, members, TypesListed(members), reg.nodes[n].table);
    var v := reg.nodes[n].table.objectType.value;
    assert PropertiesDenote(reg, us, members, "properties", ["properties"], v.properties);
    assert ["properties"] + [table[i].key] == ["properties", table[i].key];
    assert Keys(Object(table))[i] == table[i].key && Values(Object(table))[i] == table[i].value;
  }

  /** An object that lacks a property of a compiled document gets the default written there, whatever
      else it holds. */
  lemma {:induction false} WrittenDefaultAdded(reg: Registry, k: Checks, scope: seq<U.Uri>, members: seq<Member>, n: Id,
        table: seq<Member>, i: nat, inner: seq<Member>, p: Pointer, instance: seq<Member>)
    requires Ready(reg) && Denotes(reg, scope, Object(members), n) && !Has(members, "$ref")
    requires "object" in TypesListed(members) && multiset(TypesListed(members))["object"] < 2
    requires Has(members, "properties") && Get(members, "properties") == Object(table) && i < |table|
    requires table[i].value == Object(inner) && !Has(inner, "$ref") && Has(inner, "default")
    requires !Get(inner, "default").Null? && !Has(instance, table[i].key)
    ensures Evaluable(reg.nodes)
    ensures Addition(p + [table[i].key], Get(inner, "default")) in Run(reg.nodes, k, n, p, Object(instance)).patch
  {
    ReadyGraph(reg);
    var us := IdScope(scope, members).value;
    ListedProperties(reg, us, members, n, table, i);
    var m := reg.nodes[n].table.objectType.value.properties[i].schema;
    PlainDefault(reg, Scope(us, ["properties", table[i].key]), inner, m);
    DenotedDefault(reg, Scope(us, ["properties", table[i].key]), inner, m, Get(inner, "default"));
    DefaultAdded(reg.nodes, k, n, p, instance, i, Get(inner, "default"));
  }
}
