/** The validation code itself: loops with early exits, nested first-error handlers and a
    shared, growing patch. Each method is proved to report exactly what `Evaluation.Run` lists. */

module Handlers {
  import opened Wrappers
  import opened Json
  import opened Evaluation

  /** `FirstError` keeps the first report, `Throwing` leaves validation by an exception at the
      first report, `Recording` stands for any handler of a caller that returns normally. */
  datatype HandlerKind = FirstError | Throwing | Recording

  class ErrorHandler {
    const kind: HandlerKind
    var first: Option<Report>
    var log: seq<Report>
    ghost var trace: seq<Report>  // every report made so far

    ghost predicate Valid()
      reads this
    {
      && (kind.Recording? ==> log == trace)
      && (kind.FirstError? || kind.Throwing? ==> first == if trace == [] then None else Some(trace[0]))
    }

    constructor (kind: HandlerKind)
      ensures Valid() && trace == [] && this.kind == kind
    {
      this.kind := kind;
      first, log, trace := None, [], [];
    }

    /** Reports an error; the result says that an exception leaves the validation. */
    method Error(p: Pointer, j: Json, m: Message) returns (thrown: bool)
      requires Valid()
      modifies this
      ensures Valid() && trace == old(trace) + [Report(p, j, m)]
      ensures thrown == kind.Throwing?
    {
      trace := trace + [Report(p, j, m)];
      match kind
      case FirstError =>
        if first.None? {
          first := Some(Report(p, j, m));
        }
        thrown := false;
      case Throwing =>
        if first.None? {
          first := Some(Report(p, j, m));
        }
        thrown := true;
      case Recording =>
        log := log + [Report(p, j, m)];
        thrown := false;
    }
  }

  class JsonPatch {
    var ops: seq<Addition>

    constructor ()
      ensures ops == []
    {
      ops := [];
    }

    method Add(p: Pointer, value: Json)
      modifies this
      ensures ops == old(ops) + [Addition(p, value)]
    {
      ops := ops + [Addition(p, value)];
    }
  }

  /** From trace t and operations a, the handler and the patch have received outcome o; a
      throwing handler has received its first report only. */
  ghost predicate Did(e: ErrorHandler, patch: JsonPatch, t: seq<Report>, a: seq<Addition>, o: Outcome, thrown: bool)
    reads e, patch
  {
    && e.Valid()
    && if e.kind.Throwing? && o.errors != [] then thrown && e.trace == t + [o.errors[0]]
       else !thrown && e.trace == t + o.errors && patch.ops == a + o.patch
  }

  lemma DidNothing(e: ErrorHandler, patch: JsonPatch)
    requires e.Valid()
    ensures Did(e, patch, e.trace, patch.ops, Silent, false)
  {
    assert e.trace + [] == e.trace && patch.ops + [] == patch.ops;
  }

  /** A handler of its own that does not throw has heard the whole outcome. */
  lemma Heard(e: ErrorHandler, patch: JsonPatch, a: seq<Addition>, o: Outcome, thrown: bool)
    requires Did(e, patch, [], a, o, thrown) && !e.kind.Throwing?
    ensures e.Valid() && e.trace == o.errors && patch.ops == a + o.patch
  {
    assert [] + o.errors == o.errors;
  }

  /** `done` and then `step`; an exception during `done` is the end of it. */
  lemma StepDone(e: ErrorHandler, patch: JsonPatch, t: seq<Report>, a: seq<Addition>, done: Outcome,
                 t1: seq<Report>, a1: seq<Addition>, step: Outcome, thrown: bool)
    requires t1 == t + done.errors && a1 == a + done.patch && (e.kind.Throwing? ==> done.errors == [])
    requires Did(e, patch, t1, a1, step, thrown)
    ensures Did(e, patch, t, a, Then(done, step), thrown)
  {
    assert (t + done.errors) + step.errors == t + (done.errors + step.errors);
    assert (a + done.patch) + step.patch == a + (done.patch + step.patch);
  }

  /** From trace t and operations a on, outcome `total` is due and `rest` of it is still to come. */
  ghost predicate Owes(e: ErrorHandler, patch: JsonPatch, t: seq<Report>, a: seq<Addition>, total: Outcome,
        rest: Outcome)
    reads e, patch
  {
    && e.Valid()
    && t + total.errors == e.trace + rest.errors
    && a + total.patch == patch.ops + rest.patch
    && (e.kind.Throwing? ==> e.trace == t)
  }

  /** One step of what is owed has been done. */
  lemma Pay(e: ErrorHandler, patch: JsonPatch, t: seq<Report>, a: seq<Addition>, total: Outcome,
            t1: seq<Report>, a1: seq<Addition>, step: Outcome, rest: Outcome, thrown: bool)
    requires t + total.errors == t1 + Then(step, rest).errors && a + total.patch == a1 + Then(step, rest).patch
    requires e.kind.Throwing? ==> t1 == t
    requires Did(e, patch, t1, a1, step, thrown)
    ensures !thrown ==> Owes(e, patch, t, a, total, rest)
    ensures thrown ==> Did(e, patch, t, a, total, true)
  {
    assert (t1 + step.errors) + rest.errors == t1 + (step.errors + rest.errors);
    assert (a1 + step.patch) + rest.patch == a1 + (step.patch + rest.patch);
    if thrown {
      assert total.errors == (t1 + Then(step, rest).errors)[|t|..] == Then(step, rest).errors;
    }
  }

  lemma PayLast(e: ErrorHandler, patch: JsonPatch, t: seq<Report>, a: seq<Addition>, total: Outcome,
                t1: seq<Report>, a1: seq<Addition>, last: Outcome, thrown: bool)
    requires t + total.errors == t1 + last.errors && a + total.patch == a1 + last.patch
    requires e.kind.Throwing? ==> t1 == t
    requires Did(e, patch, t1, a1, last, thrown)
    ensures Did(e, patch, t, a, total, thrown)
  {
    if e.kind.Throwing? {
      assert total.errors == (t + total.errors)[|t|..] == last.errors;
    }
  }

  lemma Settle(e: ErrorHandler, patch: JsonPatch, t: seq<Report>, a: seq<Addition>, total: Outcome, last: Outcome)
    requires Owes(e, patch, t, a, total, last) && last == Silent
    ensures Did(e, patch, t, a, total, false)
  {
    assert e.trace + [] == e.trace && patch.ops + [] == patch.ops;
    if e.kind.Throwing? {
      assert |total.errors| == 0;
    }
  }
}

module Validator {
  import opened Wrappers
  import opened Json
  import opened SchemaGraph
  import opened Evaluation
  import opened Handlers

  method ErrorIf(c: bool, p: Pointer, j: Json, m: Message, e: ErrorHandler, ghost patch: JsonPatch)
    returns (thrown: bool)
    requires e.Valid()
    modifies e
    ensures Did(e, patch, old(e.trace), old(patch.ops), FailIf(c, p, j, m), thrown)
  {
    thrown := false;
    if c {
      thrown := e.Error(p, j, m);
    }
    assert patch.ops + [] == patch.ops && e.trace == old(e.trace) + FailIf(c, p, j, m).errors;
  }

  // ---------------------------------------------------------------- scalars

  /** `utf8_length`: the bytes that do not continue a UTF-8 sequence. */
  method Utf8Length(s: string) returns (len: nat)
    ensures len == CodePoints(s)
  {
    len := 0;
    for i := 0 to |s|
      invariant len == CodePoints(s[..i])
    {
      assert s[..i + 1][..i] == s[..i];
      if !(0x80 <= s[i] as int % 256 < 0xC0) {
        len := len + 1;
      }
    }
    assert s[..|s|] == s;
  }

  method ValidateString(k: Checks, v: StringRules, p: Pointer, s: string, e: ErrorHandler, ghost patch: JsonPatch)
    returns (thrown: bool)
    requires e.Valid()
    modifies e
    ensures Did(e, patch, old(e.trace), old(patch.ops), RunString(k, v, p, s), thrown)
  {
    thrown := ValidateLengths(v, p, s, e, patch);
    if !thrown {
      ghost var t1 := e.trace;
      thrown := ValidateText(k, v, p, s, e, patch);
      StepDone(e, patch, old(e.trace), patch.ops, RunLengths(v, p, s), t1, patch.ops, RunText(k, v, p, s), thrown);
    }
  }

  method ValidateLengths(v: StringRules, p: Pointer, s: string, e: ErrorHandler, ghost patch: JsonPatch)
    returns (thrown: bool)
    requires e.Valid()
    modifies e
    ensures Did(e, patch, old(e.trace), old(patch.ops), RunLengths(v, p, s), thrown)
  {
    var length := Utf8Length(s);
    thrown := ErrorIf(v.minLength.Some? && length < v.minLength.value, p, String(s), TooShort(v.minLength.GetOr(0)), e,
      patch);
    assert Did(e, patch, old(e.trace), patch.ops, RunMinLength(v, p, s), thrown);
    if !thrown {
      ghost var t1 := e.trace;
      thrown := ErrorIf(v.maxLength.Some? && length > v.maxLength.value, p, String(s), TooLong(v.maxLength.GetOr(0)), e,
        patch);
      StepDone(e, patch, old(e.trace), patch.ops, RunMinLength(v, p, s), t1, patch.ops, RunMaxLength(v, p, s), thrown);
    }
  }

  method ValidateText(k: Checks, v: StringRules, p: Pointer, s: string, e: ErrorHandler, ghost patch: JsonPatch)
    returns (thrown: bool)
    requires e.Valid()
    modifies e
    ensures Did(e, patch, old(e.trace), old(patch.ops), RunText(k, v, p, s), thrown)
  {
    ghost var t, done := e.trace, RunContent(k, v, p, s);
    var content := if v.content.Some? then k.contentError(v.content.value.0, v.content.value.1, s) else None;
    thrown := ErrorIf(content.Some?, p, String(s), ContentFailed(content.GetOr("")), e, patch);
    assert Did(e, patch, t, patch.ops, done, thrown);
    if !thrown {
      ghost var t1 := e.trace;
      thrown := ErrorIf(v.pattern.Some? && !k.matches(v.pattern.value, s), p, String(s),
        PatternMismatch(v.pattern.GetOr("")), e, patch);
      StepDone(e, patch, t, patch.ops, done, t1, patch.ops, RunPattern(k, v, p, s), thrown);
    }
    done := Then(done, RunPattern(k, v, p, s));
    assert Did(e, patch, t, patch.ops, done, thrown);
    if !thrown {
      ghost var t1 := e.trace;
      var format := if v.format.Some? then k.formatError(v.format.value, s) else None;
      thrown := ErrorIf(format.Some?, p, String(s), FormatFailed(format.GetOr("")), e, patch);
      StepDone(e, patch, t, patch.ops, done, t1, patch.ops, RunFormat(k, v, p, s), thrown);
    }
  }

  method ValidateNumber(k: Checks, b: Bounds, p: Pointer, j: Json, x: real, e: ErrorHandler, ghost patch: JsonPatch)
    returns (thrown: bool)
    requires e.Valid()
    modifies e
    ensures Did(e, patch, old(e.trace), old(patch.ops), RunNumber(k, b, p, j, x), thrown)
  {
    ghost var t, done := e.trace, RunMultiple(k, b, p, j, x);
    thrown := ErrorIf(b.multipleOf.Some? && x != 0.0 && k.violatesMultipleOf(x, b.multipleOf.value),
                      p, j, NotMultiple(b.multipleOf.GetOr(0.0)), e, patch);
    assert Did(e, patch, t, patch.ops, done, thrown);
    if !thrown {
      ghost var t1 := e.trace;
      thrown := ValidateMaximum(b, p, j, x, e, patch);
      StepDone(e, patch, t, patch.ops, done, t1, patch.ops, RunMaximum(b, p, j, x), thrown);
    }
    done := Then(done, RunMaximum(b, p, j, x));
    assert Did(e, patch, t, patch.ops, done, thrown);
    if !thrown {
      ghost var t1 := e.trace;
      thrown := ValidateMinimum(b, p, j, x, e, patch);
      StepDone(e, patch, t, patch.ops, done, t1, patch.ops, RunMinimum(b, p, j, x), thrown);
    }
  }

  method ValidateMaximum(b: Bounds, p: Pointer, j: Json, x: real, e: ErrorHandler, ghost patch: JsonPatch)
    returns (thrown: bool)
    requires e.Valid()
    modifies e
    ensures Did(e, patch, old(e.trace), old(patch.ops), RunMaximum(b, p, j, x), thrown)
  {
    DidNothing(e, patch);
    thrown := false;
    if b.maximum.Some? {
      if b.exclusiveMaximum && x >= b.maximum.value {
        thrown := ErrorIf(true, p, j, ReachesMaximum(b.maximum.value), e, patch);
      } else {
        thrown := ErrorIf(x > b.maximum.value, p, j, ExceedsMaximum(b.maximum.value), e, patch);
      }
    }
  }

  method ValidateMinimum(b: Bounds, p: Pointer, j: Json, x: real, e: ErrorHandler, ghost patch: JsonPatch)
    returns (thrown: bool)
    requires e.Valid()
    modifies e
    ensures Did(e, patch, old(e.trace), old(patch.ops), RunMinimum(b, p, j, x), thrown)
  {
    DidNothing(e, patch);
    thrown := false;
    if b.minimum.Some? {
      if b.exclusiveMinimum && x <= b.minimum.value {
        thrown := ErrorIf(true, p, j, ReachesMinimum(b.minimum.value), e, patch);
      } else {
        thrown := ErrorIf(x < b.minimum.value, p, j, BelowMinimum(b.minimum.value), e, patch);
      }
    }
  }

  // ---------------------------------------------------------------- loops that only report

  method ValidateRequired(names: seq<string>, dependency: bool, p: Pointer, members: seq<Member>, e: ErrorHandler,
        ghost patch: JsonPatch) returns (thrown: bool)
    requires e.Valid()
    modifies e
    ensures Did(e, patch, old(e.trace), old(patch.ops), RunRequired(names, dependency, p, members), thrown)
  {
    ghost var t, a, total := e.trace, patch.ops, RunRequired(names, dependency, p, members);
    thrown := false;
    for i := 0 to |names|
      invariant !thrown && Owes(e, patch, t, a, total, RunRequired(names[i..], dependency, p, members))
    {
      ghost var t1, rest := e.trace, names[i..];
      assert rest[0] == names[i] && rest[1..] == names[i + 1..];
      var message := if dependency then MissingDependency(names[i]) else MissingProperty(names[i]);
      thrown := ErrorIf(!Has(members, names[i]), p, Object(members), message, e, patch);
      Pay(e, patch, t, a, total, t1, a, FailIf(!Has(members, names[i]), p, Object(members), message),
          RunRequired(names[i + 1..], dependency, p, members), thrown);
      if thrown { return; }
    }
    Settle(e, patch, t, a, total, RunRequired(names[|names|..], dependency, p, members));
  }

  method ValidateUnique(p: Pointer, items: seq<Json>, e: ErrorHandler, ghost patch: JsonPatch) returns (thrown: bool)
    requires e.Valid()
    modifies e
    ensures Did(e, patch, old(e.trace), old(patch.ops), RunUnique(p, items, 0), thrown)
  {
    ghost var t, a, total := e.trace, patch.ops, RunUnique(p, items, 0);
    thrown := false;
    for i := 0 to |items|
      invariant !thrown && Owes(e, patch, t, a, total, RunUnique(p, items, i))
    {
      ghost var t1 := e.trace;
      var found := FindEqual(items[i + 1..], items[i]) < |items| - i - 1;
      thrown := ErrorIf(found, p, Array(items), NotUnique, e, patch);
      Pay(e, patch, t, a, total, t1, a, FailIf(found, p, Array(items), NotUnique), RunUnique(p, items, i + 1), thrown);
      if thrown { return; }
    }
    Settle(e, patch, t, a, total, RunUnique(p, items, |items|));
  }

  /** `seen_in_enum`: the search stops at the first equal value. */
  method SeenIn(values: seq<Json>, j: Json) returns (seen: bool)
    ensures seen <==> FindEqual(values, j) < |values|
  {
    seen := false;
    for i := 0 to |values|
      invariant !seen && forall h | 0 <= h < i :: !JsonEq(j, values[h])
    {
      if JsonEq(j, values[i]) {
        seen := true;
        return;
      }
    }
  }

  /** The reverse search: defaults of the properties the object lacks go into the patch. */
  method AddDefaults(g: Graph, properties: seq<Property>, p: Pointer, members: seq<Member>, patch: JsonPatch,
        e: ErrorHandler) returns (thrown: bool)
    requires Evaluable(g) && PropertiesWithin(g, properties) && e.Valid()
    modifies e, patch
    ensures Did(e, patch, old(e.trace), old(patch.ops), RunDefaults(g, properties, p, members), thrown)
  {
    ghost var t, a, total := e.trace, patch.ops, RunDefaults(g, properties, p, members);
    thrown := false;
    for i := 0 to |properties|
      invariant !thrown && Owes(e, patch, t, a, total, RunDefaults(g, properties[i..], p, members))
    {
      ghost var t1, a1, rest := e.trace, patch.ops, properties[i..];
      assert rest[0] == properties[i] && rest[1..] == properties[i + 1..];
      thrown := AddDefault(g, properties[i], p, members, patch, e);
      Pay(e, patch, t, a, total, t1, a1, RunDefault(g, properties[i], p, members),
          RunDefaults(g, properties[i + 1..], p, members), thrown);
      if thrown { return; }
    }
    Settle(e, patch, t, a, total, RunDefaults(g, properties[|properties|..], p, members));
  }

  method AddDefault(g: Graph, property: Property, p: Pointer, members: seq<Member>, patch: JsonPatch, e: ErrorHandler)
    returns (thrown: bool)
    requires Evaluable(g) && property.schema < |g| && e.Valid()
    modifies e, patch
    ensures Did(e, patch, old(e.trace), old(patch.ops), RunDefault(g, property, p, members), thrown)
  {
    DidNothing(e, patch);
    thrown := false;
    if !Has(members, property.name) {
      match DefaultValue(g, property.schema)
      case Dangling(id) =>
        thrown := ErrorIf(true, p, Object(members), Unresolved(id), e, patch);
      case Value(d) =>
        if !d.Null? {
          patch.Add(p + [property.name], d);
        }
    }
  }

  // ---------------------------------------------------------------- schemas

  /** `validate` of a schema object. */
  method Validate(g: Graph, k: Checks, n: Id, p: Pointer, j: Json, patch: JsonPatch, e: ErrorHandler)
    returns (thrown: bool)
    requires Evaluable(g) && n < |g| && e.Valid()
    modifies e, patch
    ensures Did(e, patch, old(e.trace), old(patch.ops), Run(g, k, n, p, j), thrown)
    decreases Size(j), Rank(g, n), 2, 1
  {
    NodeParts(g, n);
    match g[n] {
      case BooleanSchema(allows) =>
        thrown := ErrorIf(!allows, p, j, FalseSchema, e, patch);
      case Reference(id, _, target) =>
        if target.Some? {
          thrown := Validate(g, k, target.value, p, j, patch, e);
        } else {
          thrown := ErrorIf(true, p, j, Unresolved(id), e, patch);
        }
      case TypeSchema(_, _, _, _, _, _, _, _) =>
        thrown := ValidateTypeSchema(g, k, n, p, j, patch, e);
    }
  }

  /** A schema with keywords: its kind, `enum` and `const`, then the logic. */
  method ValidateTypeSchema(g: Graph, k: Checks, n: Id, p: Pointer, j: Json, patch: JsonPatch, e: ErrorHandler)
    returns (thrown: bool)
    requires Evaluable(g) && n < |g| && g[n].TypeSchema? && e.Valid()
    modifies e, patch
    ensures Did(e, patch, old(e.trace), old(patch.ops), Run(g, k, n, p, j), thrown)
    decreases Size(j), Rank(g, n), 2, 0
  {
    NodeParts(g, n);
    var s := g[n];
    ghost var r := Rank(g, n);
    ghost var done := Then(RunTable(g, k, r, s.table, p, j), RunValues(s.enumeration, s.constant, p, j));
    thrown := ValidateType(g, k, r, s.table, s.enumeration, s.constant, p, j, patch, e);
    if !thrown {
      ghost var t1, a1 := e.trace, patch.ops;
      thrown := ValidateLogicAndIf(g, k, r, s.logic, s.ifSchema, s.thenSchema, s.elseSchema, p, j, patch, e);
      StepDone(e, patch, old(e.trace), old(patch.ops), done, t1, a1,
               Then(RunLogic(g, k, r, s.logic, p, j), RunIf(g, k, r, s.ifSchema, s.thenSchema, s.elseSchema, p, j)),
                 thrown);
    }
  }

  /** Validation under a first-error handler of its own. */
  method Probe(g: Graph, k: Checks, n: Id, p: Pointer, j: Json, patch: JsonPatch) returns (sub: ErrorHandler)
    requires Evaluable(g) && n < |g|
    modifies patch
    ensures fresh(sub) && sub.Valid() && sub.kind.FirstError?
    ensures sub.trace == Run(g, k, n, p, j).errors
    ensures patch.ops == old(patch.ops) + Run(g, k, n, p, j).patch
    decreases Size(j), Rank(g, n), 3, 0
  {
    sub := new ErrorHandler(FirstError);
    var thrown := Validate(g, k, n, p, j, patch, sub);
    Heard(sub, patch, old(patch.ops), Run(g, k, n, p, j), thrown);
  }

  method ValidateType(g: Graph, k: Checks, ghost r: nat, table: TypeTable, enumeration: Option<seq<Json>>,
        constant: Option<Json>,
                      p: Pointer, j: Json, patch: JsonPatch, e: ErrorHandler) returns (thrown: bool)
    requires Evaluable(g) && TableOk(g, r, table) && e.Valid()
    modifies e, patch
    ensures Did(e, patch, old(e.trace), old(patch.ops),
                Then(RunTable(g, k, r, table, p, j), RunValues(enumeration, constant, p, j)), thrown)
    decreases Size(j), r, 1, 3
  {
    thrown := ValidateTable(g, k, r, table, p, j, patch, e);
    if !thrown {
      ghost var t1, a1 := e.trace, patch.ops;
      thrown := ValidateValues(enumeration, constant, p, j, e, patch);
      StepDone(e, patch, old(e.trace), old(patch.ops), RunTable(g, k, r, table, p, j), t1, a1,
               RunValues(enumeration, constant, p, j), thrown);
    }
  }

  method ValidateValues(enumeration: Option<seq<Json>>, constant: Option<Json>, p: Pointer, j: Json, e: ErrorHandler,
        ghost patch: JsonPatch) returns (thrown: bool)
    requires e.Valid()
    modifies e
    ensures Did(e, patch, old(e.trace), old(patch.ops), RunValues(enumeration, constant, p, j), thrown)
  {
    var seen := true;
    if enumeration.Some? {
      seen := SeenIn(enumeration.value, j);
    }
    ghost var done := FailIf(!seen, p, j, NotInEnum);
    thrown := ErrorIf(!seen, p, j, NotInEnum, e, patch);
    if !thrown {
      ghost var t1 := e.trace;
      var different := constant.Some? && !JsonEq(constant.value, j);
      thrown := ErrorIf(different, p, j, NotConst, e, patch);
      StepDone(e, patch, old(e.trace), patch.ops, done, t1, patch.ops, FailIf(different, p, j, NotConst), thrown);
    }
  }

  /** Dispatch on the kind of the instance. */
  method ValidateTable(g: Graph, k: Checks, ghost r: nat, table: TypeTable, p: Pointer, j: Json, patch: JsonPatch,
        e: ErrorHandler) returns (thrown: bool)
    requires Evaluable(g) && TableOk(g, r, table) && e.Valid()
    modifies e, patch
    ensures Did(e, patch, old(e.trace), old(patch.ops), RunTable(g, k, r, table, p, j), thrown)
    decreases Size(j), r, 1, 2
  {
    match j {
      case Null => thrown := ErrorIf(!table.nullType, p, j, UnexpectedType, e, patch);
      case Boolean(_) => thrown := ErrorIf(!table.booleanType, p, j, UnexpectedType, e, patch);
      case Integer(x) => thrown := ValidateNumberType(k, table.integerType, p, j, x as real, e, patch);
      case Unsigned(x) => thrown := ValidateNumberType(k, table.unsignedType, p, j, x as real, e, patch);
      case Float(x) => thrown := ValidateNumberType(k, table.floatType, p, j, x, e, patch);
      case String(s) =>
        if table.stringType.Some? {
          thrown := ValidateString(k, table.stringType.value, p, s, e, patch);
        } else {
          thrown := ErrorIf(true, p, j, UnexpectedType, e, patch);
        }
      case Array(items) =>
        if table.arrayType.Some? {
          thrown := ValidateArray(g, k, table.arrayType.value, p, items, patch, e);
        } else {
          thrown := ErrorIf(true, p, j, UnexpectedType, e, patch);
        }
      case Object(members) =>
        if table.objectType.Some? {
          thrown := ValidateObject(g, k, r, table.objectType.value, p, members, patch, e);
        } else {
          thrown := ErrorIf(true, p, j, UnexpectedType, e, patch);
        }
    }
  }

  method ValidateNumberType(k: Checks, b: Option<Bounds>, p: Pointer, j: Json, x: real, e: ErrorHandler,
        ghost patch: JsonPatch) returns (thrown: bool)
    requires e.Valid()
    modifies e
    ensures Did(e, patch, old(e.trace), old(patch.ops),
                if b.None? then Fail(p, j, UnexpectedType) else RunNumber(k, b.value, p, j, x), thrown)
  {
    if b.Some? {
      thrown := ValidateNumber(k, b.value, p, j, x, e, patch);
    } else {
      thrown := ErrorIf(true, p, j, UnexpectedType, e, patch);
    }
  }

  // ---- logic

  method ValidateLogicAndIf(g: Graph, k: Checks, ghost r: nat, logic: seq<Logic>, i: Option<Id>, t: Option<Id>,
        f: Option<Id>,
                            p: Pointer, j: Json, patch: JsonPatch, e: ErrorHandler) returns (thrown: bool)
    requires Evaluable(g) && AllLogicBelow(g, r, logic) && e.Valid()
    requires OptionBelow(g, r, i) && OptionBelow(g, r, t) && OptionBelow(g, r, f)
    modifies e, patch
    ensures Did(e, patch, old(e.trace), old(patch.ops),
                Then(RunLogic(g, k, r, logic, p, j), RunIf(g, k, r, i, t, f, p, j)), thrown)
    decreases Size(j), r, 1, |logic| + 1
  {
    thrown := ValidateLogic(g, k, r, logic, p, j, patch, e);
    if !thrown {
      ghost var t1, a1 := e.trace, patch.ops;
      thrown := ValidateIf(g, k, r, i, t, f, p, j, patch, e);
      StepDone(e, patch, old(e.trace), old(patch.ops), RunLogic(g, k, r, logic, p, j), t1, a1,
               RunIf(g, k, r, i, t, f, p, j), thrown);
    }
  }

  method ValidateLogic(g: Graph, k: Checks, ghost r: nat, logic: seq<Logic>, p: Pointer, j: Json, patch: JsonPatch,
        e: ErrorHandler) returns (thrown: bool)
    requires Evaluable(g) && AllLogicBelow(g, r, logic) && e.Valid()
    modifies e, patch
    ensures Did(e, patch, old(e.trace), old(patch.ops), RunLogic(g, k, r, logic, p, j), thrown)
    decreases Size(j), r, 1, |logic|
  {
    ghost var t, a, total := e.trace, patch.ops, RunLogic(g, k, r, logic, p, j);
    thrown := false;
    for i := 0 to |logic|
      invariant !thrown && AllLogicBelow(g, r, logic[i..])
      invariant Owes(e, patch, t, a, total, RunLogic(g, k, r, logic[i..], p, j))
    {
      ghost var t1, a1, rest := e.trace, patch.ops, logic[i..];
      assert rest[0] == logic[i] && rest[1..] == logic[i + 1..];
      thrown := ValidateOneLogic(g, k, r, logic[i], p, j, patch, e);
      Pay(e, patch, t, a, total, t1, a1, RunOneLogic(g, k, r, logic[i], p, j), RunLogic(g, k, r, logic[i + 1..], p, j),
        thrown);
      if thrown { return; }
    }
    Settle(e, patch, t, a, total, RunLogic(g, k, r, logic[|logic|..], p, j));
  }

  method ValidateOneLogic(g: Graph, k: Checks, ghost r: nat, logic: Logic, p: Pointer, j: Json, patch: JsonPatch,
        e: ErrorHandler) returns (thrown: bool)
    requires Evaluable(g) && LogicBelow(g, r, logic) && e.Valid()
    modifies e, patch
    ensures Did(e, patch, old(e.trace), old(patch.ops), RunOneLogic(g, k, r, logic, p, j), thrown)
    decreases Size(j), r, 1, 0
  {
    match logic
    case Not(s) =>
      var sub := Probe(g, k, s, p, j, patch);
      ghost var t1, a1 := e.trace, patch.ops;
      thrown := ErrorIf(sub.first.None?, p, j, NotSucceeded, e, patch);
      StepDone(e, patch, old(e.trace), old(patch.ops), Outcome([], Run(g, k, s, p, j).patch), t1, a1,
               FailIf(sub.first.None?, p, j, NotSucceeded), thrown);
    case Combine(c, ss) =>
      thrown := ValidateCombination(g, k, r, c, ss, p, j, patch, e);
  }

  method ValidateCombination(g: Graph, k: Checks, ghost r: nat, c: Combination, ss: seq<Id>, p: Pointer, j: Json,
        patch: JsonPatch, e: ErrorHandler) returns (thrown: bool)
    requires Evaluable(g) && AllBelow(g, r, ss) && e.Valid()
    modifies e, patch
    ensures Did(e, patch, old(e.trace), old(patch.ops), RunCombination(g, k, r, c, ss, p, j, 0), thrown)
    decreases Size(j), r, 0, 1
  {
    ghost var t, a, total := e.trace, patch.ops, RunCombination(g, k, r, c, ss, p, j, 0);
    var count := 0;
    for i := 0 to |ss|
      invariant AllBelow(g, r, ss[i..]) && e.trace == t
      invariant Owes(e, patch, t, a, total, RunCombination(g, k, r, c, ss[i..], p, j, count))
    {
      var done;
      count, done, thrown := CombinationTurn(g, k, r, c, ss, i, count, p, j, patch, e, t, a, total);
      if done { return; }
    }
    ghost var a1 := patch.ops;
    thrown := ErrorIf(count == 0, p, j, NoneSucceeded, e, patch);
    PayLast(e, patch, t, a, total, t, a1, FailIf(count == 0, p, j, NoneSucceeded), thrown);
  }

  /** One turn of the loop, against what is still owed. */
  method CombinationTurn(g: Graph, k: Checks, ghost r: nat, c: Combination, ss: seq<Id>, i: nat, count: nat,
        p: Pointer, j: Json, patch: JsonPatch, e: ErrorHandler,
                         ghost t: seq<Report>, ghost a: seq<Addition>, ghost total: Outcome)
    returns (newCount: nat, done: bool, thrown: bool)
    requires Evaluable(g) && i < |ss| && AllBelow(g, r, ss[i..]) && e.Valid() && e.trace == t
    requires Owes(e, patch, t, a, total, RunCombination(g, k, r, c, ss[i..], p, j, count))
    modifies e, patch
    ensures done ==> Did(e, patch, t, a, total, thrown)
    ensures !done ==>
      e.trace == t && AllBelow(g, r, ss[i + 1..])
      && Owes(e, patch, t, a, total, RunCombination(g, k, r, c, ss[i + 1..], p, j, newCount))
    decreases Size(j), r, 0, 0
  {
    ghost var a1, rest := patch.ops, ss[i..];
    assert rest[0] == ss[i] && rest[1..] == ss[i + 1..];
    assert Below(g, r, ss[i]);
    newCount, done, thrown := TrySubschema(g, k, c, ss[i], count, p, j, patch, e);
    if done {
      PayLast(e, patch, t, a, total, t, a1, RunCombination(g, k, r, c, rest, p, j, count), thrown);
    } else {
      Pay(e, patch, t, a, total, t, a1, Outcome([], Run(g, k, ss[i], p, j).patch),
        RunCombination(g, k, r, c, ss[i + 1..], p, j, newCount), false);
    }
  }

  /** One turn of the loop: a sub-schema under its own handler, then the test for completion. */
  method TrySubschema(g: Graph, k: Checks, c: Combination, s: Id, count: nat, p: Pointer, j: Json, patch: JsonPatch,
        e: ErrorHandler)
    returns (newCount: nat, done: bool, thrown: bool)
    requires Evaluable(g) && s < |g| && e.Valid()
    modifies e, patch
    ensures newCount == if Run(g, k, s, p, j).errors == [] then count + 1 else count
    ensures
      var sub := Run(g, k, s, p, j);
      var complete := Completion(c, sub.errors, newCount, p, j);
      && done == complete.Some?
      && Did(e, patch, old(e.trace), old(patch.ops),
             if done then Then(Outcome([], sub.patch), complete.value) else Outcome([], sub.patch), thrown)
    decreases Size(j), Rank(g, s), 4, 0
  {
    var sub := Probe(g, k, s, p, j, patch);
    newCount := if sub.first.None? then count + 1 else count;
    ghost var probed, t1, a1 := Outcome([], Run(g, k, s, p, j).patch), e.trace, patch.ops;
    assert Did(e, patch, old(e.trace), old(patch.ops), probed, false);
    done, thrown := IsValidateComplete(c, p, j, e, sub, newCount, patch);
    if done {
      StepDone(e, patch, old(e.trace), old(patch.ops), probed, t1, a1, Completion(c, sub.trace, newCount, p, j).value,
        thrown);
    }
  }

  method IsValidateComplete(c: Combination, p: Pointer, j: Json, e: ErrorHandler, sub: ErrorHandler, count: nat,
        ghost patch: JsonPatch) returns (done: bool, thrown: bool)
    requires e.Valid() && sub.Valid() && sub.kind.FirstError? && e != sub
    modifies e
    ensures done == Completion(c, sub.trace, count, p, j).Some?
    ensures done ==> Did(e, patch, old(e.trace), old(patch.ops), Completion(c, sub.trace, count, p, j).value, thrown)
    ensures !done ==> e.Valid() && e.trace == old(e.trace) && !thrown
  {
    DidNothing(e, patch);
    done, thrown := false, false;
    match c
    case AllOf =>
      if sub.first.Some? {
        done := true;
        var first := sub.first.value;
        thrown := ErrorIf(true, first.pointer, first.instance, AllOfFailed(first.message), e, patch);
      }
    case AnyOf =>
      done := count == 1;
    case OneOf =>
      if count > 1 {
        done := true;
        thrown := ErrorIf(true, p, j, SeveralSucceeded, e, patch);
      }
  }

  method ValidateIf(g: Graph, k: Checks, ghost r: nat, i: Option<Id>, t: Option<Id>, f: Option<Id>, p: Pointer,
        j: Json, patch: JsonPatch, e: ErrorHandler) returns (thrown: bool)
    requires Evaluable(g) && OptionBelow(g, r, i) && OptionBelow(g, r, t) && OptionBelow(g, r, f) && e.Valid()
    modifies e, patch
    ensures Did(e, patch, old(e.trace), old(patch.ops), RunIf(g, k, r, i, t, f, p, j), thrown)
    decreases Size(j), r, 1, 0
  {
    DidNothing(e, patch);
    thrown := false;
    if i.Some? {
      var err := Probe(g, k, i.value, p, j, patch);
      ghost var t1, a1 := e.trace, patch.ops;
      DidNothing(e, patch);
      var branch := if err.first.None? then t else f;
      if branch.Some? {
        thrown := Validate(g, k, branch.value, p, j, patch, e);
      }
      StepDone(e, patch, old(e.trace), old(patch.ops), Outcome([], Run(g, k, i.value, p, j).patch), t1, a1,
               if branch.Some? then Run(g, k, branch.value, p, j) else Silent, thrown);
    }
  }

  // ---- objects

  method ValidateObject(g: Graph, k: Checks, ghost r: nat, v: ObjectRules, p: Pointer, members: seq<Member>,
        patch: JsonPatch, e: ErrorHandler) returns (thrown: bool)
    requires Evaluable(g) && ObjectWithin(g, v) && DependenciesBelow(g, r, v.dependencies) && e.Valid()
    modifies e, patch
    ensures Did(e, patch, old(e.trace), old(patch.ops), RunObject(g, k, r, v, p, members), thrown)
    decreases Size(Object(members)), r, 1, 0
  {
    thrown := ValidatePresence(v, p, members, e, patch);
    if !thrown {
      ghost var t1, a1 := e.trace, patch.ops;
      thrown := ValidateParts(g, k, r, v, p, members, patch, e);
      StepDone(e, patch, old(e.trace), old(patch.ops), RunPresence(v, p, members), t1, a1,
               Then(Then(RunMembers(g, k, v, p, members, 0), RunDefaults(g, v.properties, p, members)),
                    RunDependencies(g, k, r, v.dependencies, p, members)), thrown);
    }
  }

  method ValidatePresence(v: ObjectRules, p: Pointer, members: seq<Member>, e: ErrorHandler, ghost patch: JsonPatch)
    returns (thrown: bool)
    requires e.Valid()
    modifies e
    ensures Did(e, patch, old(e.trace), old(patch.ops), RunPresence(v, p, members), thrown)
  {
    var j := Object(members);
    var many := v.maxProperties.Some? && |members| > v.maxProperties.value;
    var few := v.minProperties.Some? && |members| < v.minProperties.value;
    ghost var t, done := e.trace, FailIf(many, p, j, TooManyProperties);
    thrown := ErrorIf(many, p, j, TooManyProperties, e, patch);
    if !thrown {
      ghost var t1 := e.trace;
      thrown := ErrorIf(few, p, j, TooFewProperties, e, patch);
      StepDone(e, patch, t, patch.ops, done, t1, patch.ops, FailIf(few, p, j, TooFewProperties), thrown);
    }
    done := Then(done, FailIf(few, p, j, TooFewProperties));
    assert Did(e, patch, t, patch.ops, done, thrown);
    if !thrown {
      ghost var t1 := e.trace;
      thrown := ValidateRequired(v.required, false, p, members, e, patch);
      StepDone(e, patch, t, patch.ops, done, t1, patch.ops, RunRequired(v.required, false, p, members), thrown);
    }
  }

  method ValidateParts(g: Graph, k: Checks, ghost r: nat, v: ObjectRules, p: Pointer, members: seq<Member>,
        patch: JsonPatch, e: ErrorHandler) returns (thrown: bool)
    requires Evaluable(g) && ObjectWithin(g, v) && DependenciesBelow(g, r, v.dependencies) && e.Valid()
    modifies e, patch
    ensures Did(e, patch, old(e.trace), old(patch.ops),
                Then(Then(RunMembers(g, k, v, p, members, 0), RunDefaults(g, v.properties, p, members)),
                     RunDependencies(g, k, r, v.dependencies, p, members)), thrown)
    decreases Size(Object(members)), r, 0, |members| + |v.dependencies| + 1
  {
    ghost var t, a, done := e.trace, patch.ops, RunMembers(g, k, v, p, members, 0);
    thrown := ValidateMembers(g, k, r, v, p, members, patch, e);
    if !thrown {
      ghost var t1, a1 := e.trace, patch.ops;
      thrown := AddDefaults(g, v.properties, p, members, patch, e);
      StepDone(e, patch, t, a, done, t1, a1, RunDefaults(g, v.properties, p, members), thrown);
    }
    done := Then(done, RunDefaults(g, v.properties, p, members));
    assert Did(e, patch, t, a, done, thrown);
    if !thrown {
      ghost var t1, a1 := e.trace, patch.ops;
      thrown := ValidateDependencies(g, k, r, v.dependencies, p, members, patch, e);
      StepDone(e, patch, t, a, done, t1, a1, RunDependencies(g, k, r, v.dependencies, p, members), thrown);
    }
  }

  method ValidateMembers(g: Graph, k: Checks, ghost r: nat, v: ObjectRules, p: Pointer, members: seq<Member>,
        patch: JsonPatch, e: ErrorHandler) returns (thrown: bool)
    requires Evaluable(g) && ObjectWithin(g, v) && e.Valid()
    modifies e, patch
    ensures Did(e, patch, old(e.trace), old(patch.ops), RunMembers(g, k, v, p, members, 0), thrown)
    decreases Size(Object(members)), r, 0, 0
  {
    ghost var t, a, total := e.trace, patch.ops, RunMembers(g, k, v, p, members, 0);
    thrown := false;
    for i := 0 to |members|
      invariant !thrown && Owes(e, patch, t, a, total, RunMembers(g, k, v, p, members, i))
    {
      ghost var t1, a1 := e.trace, patch.ops;
      thrown := ValidateMember(g, k, v, p, members, members[i], patch, e);
      Pay(e, patch, t, a, total, t1, a1, RunMember(g, k, v, p, members, members[i]),
        RunMembers(g, k, v, p, members, i + 1), thrown);
      if thrown { return; }
    }
    Settle(e, patch, t, a, total, RunMembers(g, k, v, p, members, |members|));
  }

  method ValidateMember(g: Graph, k: Checks, v: ObjectRules, p: Pointer, members: seq<Member>, m: Member,
        patch: JsonPatch, e: ErrorHandler) returns (thrown: bool)
    requires Evaluable(g) && ObjectWithin(g, v) && e.Valid()
    requires Size(m.value) + 1 < Size(Object(members))
    modifies e, patch
    ensures Did(e, patch, old(e.trace), old(patch.ops), RunMember(g, k, v, p, members, m), thrown)
    decreases Size(m.value) + 1, Top(g), 0, 0
  {
    ghost var done := Then(if v.propertyNames.Some? then Run(g, k, v.propertyNames.value, p, String(m.key)) else Silent,
                           RunListed(g, k, v, p, m));
    thrown := ValidateNameAndListed(g, k, v, p, m, patch, e);
    if !thrown {
      ghost var t1, a1 := e.trace, patch.ops;
      thrown := ValidateUnlisted(g, k, v, p, members, m, patch, e);
      StepDone(e, patch, old(e.trace), old(patch.ops), done, t1, a1,
               Then(RunPatterns(g, k, v.patternProperties, p, m), RunAdditional(g, k, v, p, members, m)), thrown);
    }
  }

  method ValidateNameAndListed(g: Graph, k: Checks, v: ObjectRules, p: Pointer, m: Member, patch: JsonPatch,
        e: ErrorHandler) returns (thrown: bool)
    requires Evaluable(g) && ObjectWithin(g, v) && e.Valid()
    modifies e, patch
    ensures Did(e, patch, old(e.trace), old(patch.ops),
                Then(if v.propertyNames.Some? then Run(g, k, v.propertyNames.value, p, String(m.key)) else Silent,
                     RunListed(g, k, v, p, m)), thrown)
    decreases Size(m.value), Top(g), 1, 0
  {
    DidNothing(e, patch);
    thrown := false;
    if v.propertyNames.Some? {
      TopIsAbove(g, v.propertyNames.value);
      thrown := Validate(g, k, v.propertyNames.value, p, String(m.key), patch, e);
    }
    ghost var done := if v.propertyNames.Some? then Run(g, k, v.propertyNames.value, p, String(m.key)) else Silent;
    assert Did(e, patch, old(e.trace), old(patch.ops), done, thrown);
    if !thrown {
      ghost var t1, a1 := e.trace, patch.ops;
      DidNothing(e, patch);
      var i := FindProperty(v.properties, m.key);
      if i < |v.properties| {
        TopIsAbove(g, v.properties[i].schema);
        thrown := Validate(g, k, v.properties[i].schema, p + [m.key], m.value, patch, e);
      }
      StepDone(e, patch, old(e.trace), old(patch.ops), done, t1, a1, RunListed(g, k, v, p, m), thrown);
    }
  }

  method ValidateUnlisted(g: Graph, k: Checks, v: ObjectRules, p: Pointer, members: seq<Member>, m: Member,
        patch: JsonPatch, e: ErrorHandler) returns (thrown: bool)
    requires Evaluable(g) && ObjectWithin(g, v) && e.Valid()
    modifies e, patch
    ensures Did(e, patch, old(e.trace), old(patch.ops),
                Then(RunPatterns(g, k, v.patternProperties, p, m), RunAdditional(g, k, v, p, members, m)), thrown)
    decreases Size(m.value), Top(g), 1, 0
  {
    var matched;
    thrown, matched := ValidatePatterns(g, k, v.patternProperties, p, m, patch, e);
    if !thrown {
      ghost var t1, a1 := e.trace, patch.ops;
      matched := matched || FindProperty(v.properties, m.key) < |v.properties|;
      assert matched <==> Matched(k, v, m.key);
      thrown := ValidateAdditional(g, k, v, matched, p, members, m, patch, e);
      StepDone(e, patch, old(e.trace), old(patch.ops), RunPatterns(g, k, v.patternProperties, p, m), t1, a1,
               RunAdditional(g, k, v, p, members, m), thrown);
    }
  }

  method ValidatePatterns(g: Graph, k: Checks, patterns: seq<Property>, p: Pointer, m: Member, patch: JsonPatch,
        e: ErrorHandler) returns (thrown: bool, matched: bool)
    requires Evaluable(g) && PropertiesWithin(g, patterns) && e.Valid()
    modifies e, patch
    ensures Did(e, patch, old(e.trace), old(patch.ops), RunPatterns(g, k, patterns, p, m), thrown)
    ensures !thrown ==> (matched <==> exists i | 0 <= i < |patterns| :: k.matches(patterns[i].name, m.key))
    decreases Size(m.value), Top(g), 0, 0
  {
    ghost var t, a, total := e.trace, patch.ops, RunPatterns(g, k, patterns, p, m);
    thrown, matched := false, false;
    for i := 0 to |patterns|
      invariant !thrown && Owes(e, patch, t, a, total, RunPatterns(g, k, patterns[i..], p, m))
      invariant matched <==> exists h | 0 <= h < i :: k.matches(patterns[h].name, m.key)
    {
      ghost var t1, a1, rest := e.trace, patch.ops, patterns[i..];
      assert rest[0] == patterns[i] && rest[1..] == patterns[i + 1..];
      DidNothing(e, patch);
      TopIsAbove(g, patterns[i].schema);
      if k.matches(patterns[i].name, m.key) {
        matched := true;
        thrown := Validate(g, k, patterns[i].schema, p + [m.key], m.value, patch, e);
      }
      Pay(e, patch, t, a, total, t1, a1,
          if k.matches(patterns[i].name, m.key) then Run(g, k, patterns[i].schema, p + [m.key], m.value) else Silent,
          RunPatterns(g, k, patterns[i + 1..], p, m), thrown);
      if thrown { return; }
    }
    Settle(e, patch, t, a, total, RunPatterns(g, k, patterns[|patterns|..], p, m));
  }

  method ValidateAdditional(g: Graph, k: Checks, v: ObjectRules, matched: bool, p: Pointer, members: seq<Member>,
        m: Member, patch: JsonPatch, e: ErrorHandler) returns (thrown: bool)
    requires Evaluable(g) && OptionWithin(g, v.additionalProperties) && e.Valid()
    requires matched <==> Matched(k, v, m.key)
    modifies e, patch
    ensures Did(e, patch, old(e.trace), old(patch.ops), RunAdditional(g, k, v, p, members, m), thrown)
    decreases Size(m.value), Top(g), 0, 0
  {
    DidNothing(e, patch);
    thrown := false;
    if !matched && v.additionalProperties.Some? {
      var s := v.additionalProperties.value;
      TopIsAbove(g, s);
      var err := Probe(g, k, s, p + [m.key], m.value, patch);
      if err.first.Some? {
        thrown := ErrorIf(true, p, Object(members), AdditionalProperty(m.key, err.first.value.message), e, patch);
      } else {
        DidNothing(e, patch);
      }
    }
  }

  method ValidateDependencies(g: Graph, k: Checks, ghost r: nat, d: seq<Dependency>, p: Pointer, members: seq<Member>,
        patch: JsonPatch, e: ErrorHandler) returns (thrown: bool)
    requires Evaluable(g) && DependenciesBelow(g, r, d) && e.Valid()
    modifies e, patch
    ensures Did(e, patch, old(e.trace), old(patch.ops), RunDependencies(g, k, r, d, p, members), thrown)
    decreases Size(Object(members)), r, 0, |d|
  {
    ghost var t, a, total := e.trace, patch.ops, RunDependencies(g, k, r, d, p, members);
    thrown := false;
    for i := 0 to |d|
      invariant !thrown && DependenciesBelow(g, r, d[i..])
      invariant Owes(e, patch, t, a, total, RunDependencies(g, k, r, d[i..], p, members))
    {
      ghost var t1, a1, rest := e.trace, patch.ops, d[i..];
      assert rest[0] == d[i] && rest[1..] == d[i + 1..];
      thrown := ValidateDependency(g, k, r, d[i], p, members, patch, e);
      Pay(e, patch, t, a, total, t1, a1, RunDependency(g, k, r, d[i], p, members),
          RunDependencies(g, k, r, d[i + 1..], p, members), thrown);
      if thrown { return; }
    }
    Settle(e, patch, t, a, total, RunDependencies(g, k, r, d[|d|..], p, members));
  }

  method ValidateDependency(g: Graph, k: Checks, ghost r: nat, d: Dependency, p: Pointer, members: seq<Member>,
        patch: JsonPatch, e: ErrorHandler) returns (thrown: bool)
    requires Evaluable(g) && (d.requirement.Schema? ==> Below(g, r, d.requirement.schema)) && e.Valid()
    modifies e, patch
    ensures Did(e, patch, old(e.trace), old(patch.ops), RunDependency(g, k, r, d, p, members), thrown)
    decreases Size(Object(members)), r, 0, 0
  {
    DidNothing(e, patch);
    thrown := false;
    if Has(members, d.name) {
      match d.requirement
      case Names(names) => thrown := ValidateRequired(names, true, p + [d.name], members, e, patch);
      case Schema(s) => thrown := Validate(g, k, s, p + [d.name], Object(members), patch, e);
    }
  }

  // ---- arrays

  method ValidateArray(g: Graph, k: Checks, v: ArrayRules, p: Pointer, items: seq<Json>, patch: JsonPatch,
        e: ErrorHandler) returns (thrown: bool)
    requires Evaluable(g) && ArrayWithin(g, v) && e.Valid()
    modifies e, patch
    ensures Did(e, patch, old(e.trace), old(patch.ops), RunArray(g, k, v, p, items), thrown)
    decreases Size(Array(items)), 0, 1, 1
  {
    thrown := ValidateCounts(v, p, items, e, patch);
    if !thrown {
      ghost var t1, a1 := e.trace, patch.ops;
      thrown := ValidateElements(g, k, v, p, items, patch, e);
      StepDone(e, patch, old(e.trace), old(patch.ops), RunCounts(v, p, items), t1, a1, RunElements(g, k, v, p, items),
        thrown);
    }
  }

  method ValidateCounts(v: ArrayRules, p: Pointer, items: seq<Json>, e: ErrorHandler, ghost patch: JsonPatch)
    returns (thrown: bool)
    requires e.Valid()
    modifies e
    ensures Did(e, patch, old(e.trace), old(patch.ops), RunCounts(v, p, items), thrown)
  {
    var j := Array(items);
    var many := v.maxItems.Some? && |items| > v.maxItems.value;
    var few := v.minItems.Some? && |items| < v.minItems.value;
    ghost var t, done := e.trace, FailIf(many, p, j, TooManyItems);
    thrown := ErrorIf(many, p, j, TooManyItems, e, patch);
    if !thrown {
      ghost var t1 := e.trace;
      thrown := ErrorIf(few, p, j, TooFewItems, e, patch);
      StepDone(e, patch, t, patch.ops, done, t1, patch.ops, FailIf(few, p, j, TooFewItems), thrown);
    }
    done := Then(done, FailIf(few, p, j, TooFewItems));
    assert Did(e, patch, t, patch.ops, done, thrown);
    if !thrown {
      ghost var t1 := e.trace;
      DidNothing(e, patch);
      if v.uniqueItems {
        thrown := ValidateUnique(p, items, e, patch);
      }
      StepDone(e, patch, t, patch.ops, done, t1, patch.ops, if v.uniqueItems then RunUnique(p, items, 0)
        else Silent, thrown);
    }
  }

  method ValidateElements(g: Graph, k: Checks, v: ArrayRules, p: Pointer, items: seq<Json>, patch: JsonPatch,
        e: ErrorHandler) returns (thrown: bool)
    requires Evaluable(g) && ArrayWithin(g, v) && e.Valid()
    modifies e, patch
    ensures Did(e, patch, old(e.trace), old(patch.ops), RunElements(g, k, v, p, items), thrown)
    decreases Size(Array(items)), 0, 0, 1
  {
    ghost var done;
    if v.itemsSchema.Some? {
      done := RunItems(g, k, v.itemsSchema.value, p, items, 0);
      thrown := ValidateItems(g, k, v.itemsSchema.value, p, items, patch, e);
    } else {
      done := RunTuple(g, k, v, p, items, 0);
      thrown := ValidateTuple(g, k, v, p, items, patch, e);
    }
    assert Did(e, patch, old(e.trace), old(patch.ops), done, thrown);
    if !thrown {
      ghost var t1, a1 := e.trace, patch.ops;
      DidNothing(e, patch);
      if v.contains.Some? {
        thrown := ValidateContains(g, k, v.contains.value, p, items, patch, e);
      }
      StepDone(e, patch, old(e.trace), old(patch.ops), done, t1, a1,
               if v.contains.Some? then RunContains(g, k, v.contains.value, p, items, 0) else Silent, thrown);
    }
  }

  method ValidateItems(g: Graph, k: Checks, s: Id, p: Pointer, items: seq<Json>, patch: JsonPatch, e: ErrorHandler)
    returns (thrown: bool)
    requires Evaluable(g) && s < |g| && e.Valid()
    modifies e, patch
    ensures Did(e, patch, old(e.trace), old(patch.ops), RunItems(g, k, s, p, items, 0), thrown)
    decreases Size(Array(items)), 0, 0, 0
  {
    ghost var t, a, total := e.trace, patch.ops, RunItems(g, k, s, p, items, 0);
    thrown := false;
    for index := 0 to |items|
      invariant !thrown && Owes(e, patch, t, a, total, RunItems(g, k, s, p, items, index))
    {
      ghost var t1, a1 := e.trace, patch.ops;
      thrown := Validate(g, k, s, p + [Decimal(index)], items[index], patch, e);
      Pay(e, patch, t, a, total, t1, a1, Run(g, k, s, p + [Decimal(index)], items[index]),
        RunItems(g, k, s, p, items, index + 1), thrown);
      if thrown { return; }
    }
    Settle(e, patch, t, a, total, RunItems(g, k, s, p, items, |items|));
  }

  method ValidateTuple(g: Graph, k: Checks, v: ArrayRules, p: Pointer, items: seq<Json>, patch: JsonPatch,
        e: ErrorHandler) returns (thrown: bool)
    requires Evaluable(g) && ArrayWithin(g, v) && e.Valid()
    modifies e, patch
    ensures Did(e, patch, old(e.trace), old(patch.ops), RunTuple(g, k, v, p, items, 0), thrown)
    decreases Size(Array(items)), 0, 0, 0
  {
    ghost var t, a, total := e.trace, patch.ops, RunTuple(g, k, v, p, items, 0);
    var index, item := 0, 0;
    thrown := false;
    for i := 0 to |items|
      invariant !thrown && index == 0 && item == (if i < |v.items| then i else |v.items|)
      invariant Owes(e, patch, t, a, total, RunTuple(g, k, v, p, items, i))
    {
      ghost var t1, a1 := e.trace, patch.ops;
      var schema := None;
      if item == |v.items| {
        schema := v.additionalItems;
      } else {
        schema := Some(v.items[item]);
        item := item + 1;
      }
      if schema.None? {
        Settle(e, patch, t, a, total, RunTuple(g, k, v, p, items, i));
        return;
      }
      thrown := Validate(g, k, schema.value, p + [Decimal(index)], items[i], patch, e);
      Pay(e, patch, t, a, total, t1, a1, Run(g, k, schema.value, p + [Decimal(0)], items[i]),
        RunTuple(g, k, v, p, items, i + 1), thrown);
      if thrown { return; }
    }
    Settle(e, patch, t, a, total, RunTuple(g, k, v, p, items, |items|));
  }

  method ValidateContains(g: Graph, k: Checks, s: Id, p: Pointer, items: seq<Json>, patch: JsonPatch, e: ErrorHandler)
    returns (thrown: bool)
    requires Evaluable(g) && s < |g| && e.Valid()
    modifies e, patch
    ensures Did(e, patch, old(e.trace), old(patch.ops), RunContains(g, k, s, p, items, 0), thrown)
    decreases Size(Array(items)), 0, 0, 0
  {
    ghost var t, a, total := e.trace, patch.ops, RunContains(g, k, s, p, items, 0);
    var contained := false;
    thrown := false;
    for i := 0 to |items|
      invariant !contained && e.trace == t
      invariant Owes(e, patch, t, a, total, RunContains(g, k, s, p, items, i))
    {
      ghost var a1 := patch.ops;
      var local := Probe(g, k, s, p, items[i], patch);
      ghost var probed := Outcome([], Run(g, k, s, p, items[i]).patch);
      assert Did(e, patch, t, a1, probed, false);
      if local.first.None? {
        contained := true;
        Pay(e, patch, t, a, total, t, a1, probed, Silent, false);
        break;
      }
      Pay(e, patch, t, a, total, t, a1, probed, RunContains(g, k, s, p, items, i + 1), false);
    }
    if contained {
      Settle(e, patch, t, a, total, Silent);
    } else {
      ghost var a1 := patch.ops;
      thrown := ErrorIf(true, p, Array(items), NotContained, e, patch);
      PayLast(e, patch, t, a, total, t, a1, Fail(p, Array(items), NotContained), thrown);
    }
  }
}
