/** Applying the patch of defaults to the instance it was computed for. */

module DefaultPatch {
  import opened Wrappers
  import opened Json
  import opened SchemaGraph
  import opened Evaluation
  import opened Pointers

  // ---------------------------------------------------------------- the JSON Patch `add` operation

  function AddTo(parent: Json, token: string, value: Json): Option<Json> {
    match parent
    case Null => Some(Object([Member(token, value)]))
    case Object(members) => Some(Object(Put(members, token, value)))
    case Array(items) =>
      if token == "-" then Some(Array(items + [value]))
      else if |token| == 0 || (|token| > 1 && token[0] == '0') then None
      else if exists i | 0 <= i < |token| :: !('0' <= token[i] <= '9') then None
      else if DigitsValue(token) <= |items| then
        var i := DigitsValue(token);
        Some(Array(items[..i] + [value] + items[i..]))
      else None
    case _ => None
  }

  function ReplaceChild(j: Json, token: string, child: Json): Json
    requires Child(j, token).Found?
  {
    match j
    case Object(members) => Object(Put(members, token, child))
    case Array(items) => Array(items[DigitsValue(token) := child])
  }

  /** `operation_add`: the parent must exist, the document itself is replaced by the empty pointer. */
  function Add(doc: Json, pointer: Pointer, value: Json): Option<Json>
    decreases |pointer|
  {
    if pointer == [] then Some(value)
    else if |pointer| == 1 then AddTo(doc, pointer[0], value)
    else if !Child(doc, pointer[0]).Found? then None
    else match Add(Child(doc, pointer[0]).json, pointer[1..], value)
      case None => None
      case Some(child) => Some(ReplaceChild(doc, pointer[0], child))
  }

  function ApplyAll(doc: Json, patch: seq<Addition>): Option<Json>
    decreases |patch|
  {
    if patch == [] then Some(doc)
    else match Add(doc, patch[0].pointer, patch[0].value)
      case None => None
      case Some(next) => ApplyAll(next, patch[1..])
  }

  // ---------------------------------------------------------------- conservative extension

  /** b is a with members added to some of its objects and nothing else changed. */
  ghost predicate Extends(a: Json, b: Json)
    decreases a
  {
    match (a, b)
    case (Object(x), Object(y)) =>
      forall i | 0 <= i < |x| :: Has(y, x[i].key) && Extends(x[i].value, Get(y, x[i].key))
    case (Array(x), Array(y)) => |x| == |y| && forall i | 0 <= i < |x| :: Extends(x[i], y[i])
    case _ => a == b
  }

  lemma {:induction false} ExtendsItself(a: Json)
    requires WellFormed(a)
    ensures Extends(a, a)
    decreases a
  {
    match a
    case Object(x) =>
      forall i | 0 <= i < |x| ensures Has(x, x[i].key) && Extends(x[i].value, Get(x, x[i].key)) {
        GetAt(x, i);
        ExtendsItself(x[i].value);
      }
    case Array(x) =>
      forall i | 0 <= i < |x| ensures Extends(x[i], x[i]) {
        ExtendsItself(x[i]);
      }
    case _ =>
  }

  lemma {:induction false} ChildExtends(a: Json, b: Json, token: string)
    requires Extends(a, b) && Child(a, token).Found?
    ensures Child(b, token).Found? && Extends(Child(a, token).json, Child(b, token).json)
  {
    match a
    case Object(x) =>
      var i := IndexOf(x, token);
      assert x[i].key == token;
    case Array(x) =>
  }

  /** Every path of the instance is a path of the extension, to the same scalar or to an
      extension of the same array or object. */
  lemma {:induction false} PathsSurvive(a: Json, b: Json, p: Pointer)
    requires Extends(a, b) && At(a, p).Found?
    ensures At(b, p).Found? && Extends(At(a, p).json, At(b, p).json)
  {
    if p != [] {
      ChildExtends(a, b, p[0]);
      PathsSurvive(Child(a, p[0]).json, Child(b, p[0]).json, p[1..]);
    }
  }

  /** A child is replaced by another extension of the original child. */
  lemma {:induction false} ReplaceExtends(a: Json, b: Json, token: string, child: Json)
    requires WellFormed(a) && Extends(a, b) && Child(a, token).Found? && Child(b, token).Found?
    requires Extends(Child(a, token).json, child)
    ensures Extends(a, ReplaceChild(b, token, child))
  {
    match a
    case Object(x) =>
      var y := b.members;
      var z := Put(y, token, child);
      forall i | 0 <= i < |x| ensures Has(z, x[i].key) && Extends(x[i].value, Get(z, x[i].key)) {
        PutGet(y, token, child, x[i].key);
        GetAt(x, i);
      }
    case Array(x) =>
  }

  lemma {:induction false} AbsentMemberExtends(x: seq<Member>, y: seq<Member>, name: string, value: Json)
    requires Extends(Object(x), Object(y)) && !Has(x, name)
    ensures Extends(Object(x), Object(Put(y, name, value)))
  {
    var z := Put(y, name, value);
    forall i | 0 <= i < |x| ensures Has(z, x[i].key) && Extends(x[i].value, Get(z, x[i].key)) {
      HasAt(x, i);
      PutGet(y, name, value, x[i].key);
    }
  }

  /** One operation of the patch, applied to any extension of the instance. */
  lemma {:induction false} AddExtends(a: Json, b: Json, pointer: Pointer, value: Json)
    requires WellFormed(a) && Extends(a, b) && AdditionOk(a, Addition(pointer, value))
    ensures Add(b, pointer, value).Some? && Extends(a, Add(b, pointer, value).value)
    decreases |pointer|
  {
    if |pointer| == 1 {
      assert pointer[..0] == [];
      AbsentMemberExtends(a.members, b.members, pointer[0], value);
    } else {
      var rest := pointer[1..];
      assert pointer[..|pointer| - 1][0] == pointer[0] && pointer[..|pointer| - 1][1..] == rest[..|rest| - 1];
      ChildExtends(a, b, pointer[0]);
      PartWellFormed(a, [pointer[0]]);
      assert At(a, [pointer[0]]) == Child(a, pointer[0]);
      var c, d := Child(a, pointer[0]).json, Child(b, pointer[0]).json;
      assert AdditionOk(c, Addition(rest, value));
      AddExtends(c, d, rest, value);
      ReplaceExtends(a, b, pointer[0], Add(d, rest, value).value);
    }
  }

  lemma {:induction false} ApplyAllExtends(a: Json, b: Json, patch: seq<Addition>)
    requires WellFormed(a) && Extends(a, b) && forall i | 0 <= i < |patch| :: AdditionOk(a, patch[i])
    ensures ApplyAll(b, patch).Some? && Extends(a, ApplyAll(b, patch).value)
    decreases |patch|
  {
    if patch != [] {
      AddExtends(a, b, patch[0].pointer, patch[0].value);
      ApplyAllExtends(a, Add(b, patch[0].pointer, patch[0].value).value, patch[1..]);
    }
  }

  /** The patch of defaults always applies, and only ever adds members the instance lacked. */
  lemma {:induction false} PatchIsConservative(g: Graph, k: Checks, n: Id, root: Json)
    requires Evaluable(g) && Straight(g, Patch) && n < |g| && WellFormed(root)
    ensures
      var patched := ApplyAll(root, Run(g, k, n, [], root).patch);
      && patched.Some?
      && Extends(root, patched.value)
      && forall p: Pointer :: At(root, p).Found? ==>
        At(patched.value, p).Found? && Extends(At(root, p).json, At(patched.value, p).json)
  {
    var patch := Run(g, k, n, [], root).patch;
    WholeInstanceSound(g, k, n, root, Patch);
    ExtendsItself(root);
    ApplyAllExtends(root, root, patch);
    forall p: Pointer | At(root, p).Found?
      ensures At(ApplyAll(root, patch).value, p).Found?
      ensures Extends(At(root, p).json, At(ApplyAll(root, patch).value, p).json)
    {
      PathsSurvive(root, ApplyAll(root, patch).value, p);
    }
  }

  /** An operation addressed to a scalar cannot be applied. */
  lemma {:induction false} ScalarParentFails(doc: Json, p: Pointer, name: string, value: Json)
    requires At(doc, p).Found? && (At(doc, p).json.Boolean? || At(doc, p).json.String?)
    ensures Add(doc, p + [name], value).None?
    decreases |p|
  {
    if p == [] {
      assert p + [name] == [name];
    } else {
      ScalarParentFails(Child(doc, p[0]).json, p[1..], name, value);
      assert (p + [name])[1..] == p[1..] + [name];
    }
  }

  // ---------------------------------------------------------------- a default inside `contains`

  const NoTypes := TypeTable(false, false, None, None, None, None, None, None)

  /** Arrays that contain an object; its property `x` has a default. */
  const CONTAINER: Graph := [
    TypeSchema(Null, NoTypes.(arrayType := Some(ArrayRules(None, None, false, None, [], None, Some(1)))), None, None,
      [], None, None, None),
    TypeSchema(Null, NoTypes.(objectType := Some(ObjectRules(None, None, [], [Property("x", 2)], [], None, [], None))),
      None, None, [], None, None, None),
    TypeSchema(Integer(5), NoTypes, None, None, [], None, None, None)]

  lemma ContainerEvaluable()
    ensures Evaluable(CONTAINER)
  {
    ContainerEdges();
    forall n | 0 <= n < |CONTAINER|
      ensures SameInstanceIds(CONTAINER[n]) == [] && Within(DescendingIds(CONTAINER[n]), 3)
    {
      assert n == 0 || n == 1 || n == 2;
    }
    NoLoops(CONTAINER);
  }

  /** Schemas that apply nothing to their own instance. */
  lemma NoLoops(g: Graph)
    requires forall n | 0 <= n < |g| :: SameInstanceIds(g[n]) == [] && Within(DescendingIds(g[n]), |g|)
    ensures Evaluable(g)
  {
    assert forall n | 0 <= n < |g| :: SameInstanceEdges(g)[n] == SameInstanceIds(g[n]);
  }

  lemma ContainerEdges()
    ensures SameInstanceIds(CONTAINER[0]) == SameInstanceIds(CONTAINER[1]) == SameInstanceIds(CONTAINER[2]) == []
    ensures DescendingIds(CONTAINER[0]) == [1] && DescendingIds(CONTAINER[1]) == [2]
    ensures DescendingIds(CONTAINER[2]) == []
  {
    var g := CONTAINER;
    assert PropertyIds([Property("x", 2)]) == [2] + PropertyIds([Property("x", 2)][1..]);
    assert ObjectIds(g[1].table.objectType.value) == [2];
    assert ArrayIds(g[0].table.arrayType.value) == [1];
  }

  /** `[{}]` is valid, but the default meant for its element is addressed to the array, and the
      patch cannot be applied. */
  lemma {:induction false} ContainsDefaultMisplaced(k: Checks)
    ensures Evaluable(CONTAINER)
    ensures Run(CONTAINER, k, 0, [], Array([Object([])])) == Outcome([], [Addition(["x"], Integer(5))])
    ensures ApplyAll(Array([Object([])]), [Addition(["x"], Integer(5))]) == None
  {
    ContainerEvaluable();
    ElementRun(k);
    ArrayRun(k);
    assert "x"[0] == 'x';
  }

  lemma {:induction false} ElementRun(k: Checks)
    requires Evaluable(CONTAINER)
    ensures Run(CONTAINER, k, 1, [], Object([])) == Outcome([], [Addition(["x"], Integer(5))])
  {
    var g, v := CONTAINER, CONTAINER[1].table.objectType.value;
    NodeParts(g, 1);
    assert v.properties[1..] == [];
    assert DefaultValue(g, 2) == Value(Integer(5)) && [] + ["x"] == ["x"];
    assert RunDefault(g, v.properties[0], [], []) == Outcome([], [Addition(["x"], Integer(5))]);
    assert RunDefaults(g, v.properties, [], []) == Outcome([], [Addition(["x"], Integer(5))]);
    assert RunPresence(v, [], []) == Silent && RunMembers(g, k, v, [], [], 0) == Silent;
    assert RunObject(g, k, Rank(g, 1), v, [], []) == Outcome([], [Addition(["x"], Integer(5))]);
    assert RunValues(None, None, [], Object([])) == Silent && RunLogic(g, k, Rank(g, 1), [], [], Object([])) == Silent;
  }

  lemma {:induction false} ArrayRun(k: Checks)
    requires Evaluable(CONTAINER)
    requires Run(CONTAINER, k, 1, [], Object([])) == Outcome([], [Addition(["x"], Integer(5))])
    ensures Run(CONTAINER, k, 0, [], Array([Object([])])) == Outcome([], [Addition(["x"], Integer(5))])
  {
    var g, v, items := CONTAINER, CONTAINER[0].table.arrayType.value, [Object([])];
    NodeParts(g, 0);
    assert RunContains(g, k, 1, [], items, 0) == Outcome([], [Addition(["x"], Integer(5))]);
    assert TupleSchema(v, 0) == None && RunTuple(g, k, v, [], items, 0) == Silent && RunCounts(v, [], items) == Silent;
    assert RunArray(g, k, v, [], items) == Outcome([], [Addition(["x"], Integer(5))]);
    assert RunValues(None, None, [], Array(items)) == Silent
        && RunLogic(g, k, Rank(g, 0), [], [], Array(items)) == Silent;
  }
}
