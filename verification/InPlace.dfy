/** Compiling an unknown keyword in place: what is erased on the way is gone for the rest of the
    compilation, and a keyword that asks for itself is compiled again.

    One file, references by pointer, no `$id`. The unknown keywords are a tree; compiling reads
    the tree, erases from it what it has read and stores schemas under pointers. Recursion is
    bounded by fuel here, as the stack bounds it in the program; `Watch` decides without fuel
    whether any amount would do. */

module InPlace {
  import opened Wrappers
  import opened Json
  import opened Documents
  import opened Denotation
  import opened CompileSteps
  import S = Strings
  import U = Uri

  /** How a keyword of a schema is read: as a value, as one sub-schema, or as one for each of its
      members, under the keyword or directly under the schema. */
  datatype Part =
    | Leaf(key: string)
    | One(key: string)
    | Each(key: string, prefix: Pointer)
    | Items
    | If

  /** The step at hand: a schema at a place is compiled under a URI (`Visit`), its keywords are
      read (`Parts`), the schema under a pointer is asked for (`Ask`), one keyword is read, a
      `$ref` is resolved, a keyword is erased, or the schema is stored. */
  datatype Job =
    | Visit(at: Pointer, uri: Pointer)
    | Parts(at: Pointer, uri: Pointer)
    | Ask(pointer: Pointer)
    | Read(at: Pointer, uri: Pointer, part: Part)
    | Refer(at: Pointer)
    | Cut(at: Pointer, key: string)
    | Store(uri: Pointer)

  /** What a value read under a URI was at that moment. */
  datatype Note = Note(uri: Pointer, key: string, value: Json)

  /** The unknown keywords, the URIs that nothing is stored under among those that can come up,
      and the values read so far. */
  datatype State = State(tree: Json, free: set<Pointer>, log: seq<Note>)

  /** `Stopped` stands for an exception, or for a place that is gone when its turn comes. */
  datatype Outcome = Made(state: State) | Stopped | Deep | Endless

  // ---------------------------------------------------------------- the order of keywords

  const STRING_PARTS := [Leaf("maxLength"), Leaf("minLength"), Leaf("contentEncoding"), Leaf("contentMediaType"),
                         Leaf("pattern"), Leaf("format")]
  const OBJECT_PARTS := [Leaf("maxProperties"), Leaf("minProperties"), Leaf("required"),
                         Each("properties", ["properties"]), Each("patternProperties", []),
                         One("additionalProperties"), Each("dependencies", ["dependencies"]), One("propertyNames")]
  const ARRAY_PARTS := [Leaf("maxItems"), Leaf("minItems"), Leaf("uniqueItems"), Items, One("contains")]
  const NUMBER_PARTS := [Leaf("maximum"), Leaf("minimum"), Leaf("exclusiveMaximum"), Leaf("exclusiveMinimum"),
                         Leaf("multipleOf")]
  const LOGIC_PARTS := [One("not"), Each("allOf", ["allOf"]), Each("anyOf", ["anyOf"]), Each("oneOf", ["oneOf"]), If]

  function KindParts(types: seq<string>): seq<Part> {
    if types == [] then []
    else (match types[0]
          case "string" => STRING_PARTS
          case "object" => OBJECT_PARTS
          case "array" => ARRAY_PARTS
          case _ => []) + KindParts(types[1..])
  }

  /** The keywords of a schema in the order in which they are read. */
  function SchemaParts(members: seq<Member>): seq<Part> {
    var types := TypesListed(members);
    KindParts(types) + [Leaf("type"), Leaf("default")]
    + (if "integer" in types || "number" in types then NUMBER_PARTS else [])
    + [Leaf("enum"), Leaf("const")] + LOGIC_PARTS
  }

  // ---------------------------------------------------------------- steps

  function Reads(at: Pointer, uri: Pointer, parts: seq<Part>): (r: seq<Job>)
    ensures |r| == |parts| && forall i | 0 <= i < |r| :: r[i] == Read(at, uri, parts[i])
  {
    seq(|parts|, i requires 0 <= i < |parts| => Read(at, uri, parts[i]))
  }

  function Visits(at: Pointer, uri: Pointer, keys: seq<string>): (r: seq<Job>)
    ensures |r| == |keys| && forall i | 0 <= i < |r| :: r[i] == Visit(at + [keys[i]], uri + [keys[i]])
  {
    seq(|keys|, i requires 0 <= i < |keys| => Visit(at + [keys[i]], uri + [keys[i]]))
  }

  /** The members that are schemas: a list of names under `dependencies` is not. */
  function SchemaKeys(key: string, keys: seq<string>, values: seq<Json>): seq<string>
    requires |keys| == |values|
  {
    if keys == [] then []
    else (if key == "dependencies" && values[0].Array? then [] else [keys[0]]) + SchemaKeys(key, keys[1..], values[1..])
  }

  function Inside(members: seq<Member>, at: Pointer, uri: Pointer, key: string): seq<Job> {
    if Has(members, key) then [Visit(at + [key], uri + [key]), Cut(at, key)] else []
  }

  /** A list of item schemas is read with `additionalItems`; what is no schema is only erased. */
  function ItemsSub(members: seq<Member>, at: Pointer, uri: Pointer, items: Json): seq<Job>
    requires Has(members, "items")
  {
    if items.Array? then
      Visits(at + ["items"], uri + ["items"], Keys(items)) + Inside(members, at, uri, "additionalItems")
      + [Cut(at, "items")]
    else if items.Object? || items.Boolean? then Inside(members, at, uri, "items")
    else [Cut(at, "items")]
  }

  /** What reading a keyword comes down to. */
  function Sub(members: seq<Member>, at: Pointer, uri: Pointer, part: Part): seq<Job> {
    match part
    case Leaf(_) => []
    case One(key) => Inside(members, at, uri, key)
    case Each(key, prefix) =>
      if !Has(members, key) then []
      else
        var j := Get(members, key);
        Visits(at + [key], uri + prefix, SchemaKeys(key, Keys(j), Values(j))) + [Cut(at, key)]
    case Items => if Has(members, "items") then ItemsSub(members, at, uri, Get(members, "items")) else []
    case If =>
      if !Has(members, "if") then []
      else if !Has(members, "then") && !Has(members, "else") then [Cut(at, "if")]
      else
        [Visit(at + ["if"], uri + ["if"])]
        + Inside(members, at, uri, "then") + Inside(members, at, uri, "else") + [Cut(at, "if")]
  }

  function MembersAt(tree: Json, at: Pointer): seq<Member> {
    match At(tree, at)
    case Found(Object(members)) => members
    case _ => []
  }

  function Erased(s: State, at: Pointer, key: string): State {
    match At(s.tree, at)
    case Found(Object(members)) =>
      if Has(members, key) then s.(tree := ReplaceAt(s.tree, at, Object(Without(members, {key})))) else s
    case _ => s
  }

  /** The pointer a `$ref` into this file stands for; empty when it leads elsewhere. */
  function Target(members: seq<Member>): Option<Pointer> {
    match Opt(members, "$ref")
    case Some(String(s)) => Some(if U.LocationPart(s) == "" then U.PointerIn(s) else [])
    case _ => None
  }

  /** The end of a schema: what says nothing about instances is erased, and the schema is stored. */
  function Trim(at: Pointer, uri: Pointer): seq<Job> {
    [Cut(at, "$schema"), Cut(at, "title"), Cut(at, "description"), Store(uri)]
  }

  /** What the next job does: change the state, continue with other jobs first, call, or stop. */
  datatype Move = Next(state: State) | More(jobs: seq<Job>) | Call(jobs: seq<Job>) | Stop

  function Now(s: State, job: Job): Move {
    match job
    case Visit(at, uri) =>
      (match At(s.tree, at)
       case Found(Boolean(_)) => Call([Store(uri)])
       case Found(Object(_)) => Call([Read(at, uri, Each("definitions", ["definitions"])), Parts(at, uri)] +
         Trim(at, uri))
       case _ => Stop)
    case Parts(at, uri) =>
      (match At(s.tree, at)
       case Found(Object(members)) =>
         if Has(members, "$ref") then Call([Refer(at), Cut(at, "$ref"), Cut(at, "default")])
         else Call(Reads(at, uri, SchemaParts(members)))
       case _ => Stop)
    case Ask(p) =>
      if p !in s.free || p == [] || At(s.tree, p).OutOfRange? then Next(s)
      else if At(s.tree, p).ParseError? then Stop
      else Call([Visit(p, p), Cut([], S.PointerText(p))])
    case Read(at, uri, part) =>
      var members := MembersAt(s.tree, at);
      if part.Leaf? then
        if Has(members, part.key)
          then Next(Erased(s, at, part.key).(log := s.log + [Note(uri, part.key, Get(members, part.key))]))
        else Next(s)
      else More(Sub(members, at, uri, part))
    case Refer(at) =>
      (match Target(MembersAt(s.tree, at))
       case None => Stop
       case Some(p) => More([Ask(p)]))
    case Cut(at, key) => Next(Erased(s, at, key))
    case Store(uri) => if uri in s.free then Next(s.(free := s.free - {uri})) else Stop
  }

  // ---------------------------------------------------------------- what shrinks

  lemma {:induction false} FoundInside(j: Json, p: Pointer)
    requires At(j, p).Found?
    ensures |p| + Size(At(j, p).json) <= Size(j)
  {
    if p != [] { FoundInside(Child(j, p[0]).json, p[1..]); }
  }

  lemma {:induction false} PutSize(members: seq<Member>, key: string, value: Json)
    requires SortedKeys(members) && Has(members, key)
    ensures SizeMembers(Put(members, key, value)) + Size(Get(members, key)) == SizeMembers(members) + Size(value)
  {
    var rest := members[1..];
    if members[0].key == key {
      assert ([Member(key, value)] + rest)[1..] == rest;
    } else {
      assert members == [members[0]] + rest;
      ReadCons(members[0], rest, key);
      var k := IndexOf(members, key);
      assert StringLess(members[0].key, members[k].key);
      StringLessTrichotomy(members[0].key, key);
      PutSize(rest, key, value);
      assert ([members[0]] + Put(rest, key, value))[1..] == Put(rest, key, value);
    }
  }

  lemma {:induction false} SetSize(items: seq<Json>, i: nat, value: Json)
    requires i < |items|
    ensures SizeItems(items[i := value]) + Size(items[i]) == SizeItems(items) + Size(value)
  {
    var r := items[i := value];
    if i == 0 {
      assert r[1..] == items[1..];
    } else {
      assert r[1..] == items[1..][i - 1 := value];
      SetSize(items[1..], i - 1, value);
    }
  }

  lemma {:induction false} ReplaceSize(j: Json, p: Pointer, value: Json)
    requires WellFormed(j) && At(j, p).Found?
    ensures Size(ReplaceAt(j, p, value)) + Size(At(j, p).json) == Size(j) + Size(value)
    decreases |p|
  {
    if p != [] {
      var c := Child(j, p[0]).json;
      ReplaceSize(c, p[1..], value);
      var sub := ReplaceAt(c, p[1..], value);
      match j {
        case Object(members) => PutSize(members, p[0], sub);
        case Array(items) => SetSize(items, DigitsValue(p[0]), sub);
      }
    }
  }

  lemma {:induction false} WithoutOne(members: seq<Member>, key: string)
    requires Has(members, key)
    ensures SizeMembers(Without(members, {key})) < SizeMembers(members)
  {
    var rest := Without(members[1..], {key});
    if members[0].key == key {
      WithoutSize(members[1..], {key});
      assert [] + rest == rest;
    } else {
      WithoutOne(members[1..], key);
      assert ([members[0]] + rest)[1..] == rest;
    }
  }

  ghost function Potential(s: State): nat { Size(s.tree) + |s.free| }

  ghost predicate Onward(s: State, t: State) {
    t == s || Potential(t) < Potential(s)
  }

  lemma ErasedShrinks(s: State, at: Pointer, key: string)
    requires WellFormed(s.tree)
    ensures WellFormed(Erased(s, at, key).tree)
    ensures Erased(s, at, key) == s || Size(Erased(s, at, key).tree) < Size(s.tree)
    ensures Has(MembersAt(s.tree, at), key) ==> Erased(s, at, key) != s
  {
    var members := MembersAt(s.tree, at);
    if Has(members, key) {
      var rest := Object(Without(members, {key}));
      AtKeeps(s.tree, at);
      WithoutWellFormed(members, {key});
      ReplaceAtKeeps(s.tree, at, rest);
      ReplaceSize(s.tree, at, rest);
      WithoutOne(members, key);
    }
  }

  // ---------------------------------------------------------------- what a step may do

  predicate Plain(jobs: seq<Job>) {
    forall i | 0 <= i < |jobs| :: !jobs[i].Read? && !jobs[i].Refer?
  }

  /** How deep in the tree a job works: calls go deeper, unless they ask for another keyword. */
  function Rank(job: Job): int {
    match job
    case Visit(at, _) => 2 * |at|
    case Parts(at, _) => 2 * |at| + 1
    case Read(at, _, _) => 2 * |at| + 2
    case _ => 0
  }

  predicate Deeper(jobs: seq<Job>, depth: int) {
    forall i | 0 <= i < |jobs| :: jobs[i].Visit? || jobs[i].Parts? || jobs[i].Read? ==> depth < Rank(jobs[i])
  }

  function InCall(job: Job): int {
    if job.Ask? then -1 else Rank(job)
  }

  function Asked(job: Job): set<Pointer> {
    if job.Ask? then {job.pointer} else {}
  }

  predicate AllAsk(jobs: seq<Job>) {
    forall i | 0 <= i < |jobs| :: jobs[i].Ask?
  }

  /** A step changes nothing, or erases or stores something; what it continues with is simple;
      a call goes deeper, or asks for a keyword that is not stored. */
  ghost predicate Proper(s: State, job: Job, move: Move) {
    match move
    case Stop => true
    case Next(t) => WellFormed(t.tree) && Onward(s, t)
    case More(js) => Plain(js) && if job.Read? then Deeper(js, Rank(job) - 1) else job.Refer? && AllAsk(js)
    case Call(js) =>
      && Deeper(js, InCall(job)) && -1 <= InCall(job) < 2 * Size(s.tree)
      && if job.Ask? then job.pointer in s.free else job.Visit? || job.Parts?
  }

  type Step = (State, Job) -> Move

  ghost predicate Steps(step: Step) {
    forall s: State, job: Job {:trigger Proper(s, job, step(s, job))} | WellFormed(s.tree) ::
      Proper(s, job, step(s, job))
  }

  lemma PlainJoin(a: seq<Job>, b: seq<Job>, depth: int)
    requires Plain(a) && Plain(b) && Deeper(a, depth) && Deeper(b, depth)
    ensures Plain(a + b) && Deeper(a + b, depth)
  {
  }

  ghost predicate Simple(jobs: seq<Job>, depth: int) {
    Plain(jobs) && Deeper(jobs, depth)
  }

  lemma SimpleJoin(a: seq<Job>, b: seq<Job>, c: seq<Job>, depth: int)
    requires Simple(a, depth) && Simple(b, depth) && Simple(c, depth)
    ensures Simple(a + b + c, depth)
  {
    PlainJoin(a, b, depth);
    PlainJoin(a + b, c, depth);
  }

  lemma InsideSimple(members: seq<Member>, at: Pointer, uri: Pointer, key: string)
    ensures Simple(Inside(members, at, uri, key), 2 * |at| + 1) && Simple([Cut(at, key)], 2 * |at| + 1)
    ensures Simple([Visit(at + [key], uri + [key])], 2 * |at| + 1)
  {
  }

  lemma SubProper(members: seq<Member>, at: Pointer, uri: Pointer, part: Part)
    ensures Simple(Sub(members, at, uri, part), 2 * |at| + 1)
  {
    var d := 2 * |at| + 1;
    match part
    case Leaf(_) =>
    case One(key) => InsideSimple(members, at, uri, key);
    case Each(key, prefix) =>
      if Has(members, key) {
        var j := Get(members, key);
        PlainJoin(Visits(at + [key], uri + prefix, SchemaKeys(key, Keys(j), Values(j))), [Cut(at, key)], d);
      }
    case Items =>
      InsideSimple(members, at, uri, "items");
      InsideSimple(members, at, uri, "additionalItems");
      if Has(members, "items") {
        SimpleJoin(Visits(at + ["items"], uri + ["items"], Keys(Get(members, "items"))),
                   Inside(members, at, uri, "additionalItems"), [Cut(at, "items")], d);
      }
    case If => IfProper(members, at, uri);
  }

  lemma IfProper(members: seq<Member>, at: Pointer, uri: Pointer)
    ensures Simple(Sub(members, at, uri, If), 2 * |at| + 1)
  {
    var d := 2 * |at| + 1;
    InsideSimple(members, at, uri, "if");
    InsideSimple(members, at, uri, "then");
    InsideSimple(members, at, uri, "else");
    SimpleJoin([Visit(at + ["if"], uri + ["if"])], Inside(members, at, uri, "then"), Inside(members, at, uri, "else"),
      d);
    PlainJoin([Visit(at + ["if"], uri + ["if"])] + Inside(members, at, uri, "then") + Inside(members, at, uri, "else"),
              [Cut(at, "if")], d);
  }

  lemma ReadProper(s: State, at: Pointer, uri: Pointer, part: Part)
    requires WellFormed(s.tree)
    ensures Proper(s, Read(at, uri, part), Now(s, Read(at, uri, part)))
  {
    SubProper(MembersAt(s.tree, at), at, uri, part);
    if part.Leaf? { ErasedShrinks(s, at, part.key); }
  }

  lemma CallProper(s: State, at: Pointer, uri: Pointer)
    ensures Proper(s, Visit(at, uri), Now(s, Visit(at, uri))) && Proper(s, Parts(at, uri), Now(s, Parts(at, uri)))
  {
    if At(s.tree, at).Found? { FoundInside(s.tree, at); }
  }

  /** The steps of compilation are such steps. */
  lemma NowProper(s: State, job: Job)
    requires WellFormed(s.tree)
    ensures Proper(s, job, Now(s, job))
  {
    match job
    case Visit(at, uri) => CallProper(s, at, uri);
    case Parts(at, uri) => CallProper(s, at, uri);
    case Read(at, uri, part) => ReadProper(s, at, uri, part);
    case Cut(at, key) => ErasedShrinks(s, at, key);
    case Ask(_) =>
    case Refer(_) =>
    case Store(_) =>
  }

  lemma NowSteps()
    ensures Steps(Now)
  {
    forall s: State, job: Job | WellFormed(s.tree) ensures Proper(s, job, Now(s, job)) { NowProper(s, job); }
  }

  // ---------------------------------------------------------------- running with fuel

  function Compounds(jobs: seq<Job>): nat {
    if jobs == [] then 0 else (if jobs[0].Read? || jobs[0].Refer? then 1 else 0) + Compounds(jobs[1..])
  }

  lemma {:induction false} CompoundsJoin(a: seq<Job>, b: seq<Job>)
    ensures Compounds(a + b) == Compounds(a) + Compounds(b)
  {
    if a == [] {
      assert a + b == b;
    } else {
      assert (a + b)[1..] == a[1..] + b;
      CompoundsJoin(a[1..], b);
    }
  }

  lemma {:induction false} PlainCompounds(jobs: seq<Job>)
    requires Plain(jobs)
    ensures Compounds(jobs) == 0
  {
    if jobs != [] {
      assert forall i | 0 <= i < |jobs[1..]| :: jobs[1..][i] == jobs[i + 1];
      PlainCompounds(jobs[1..]);
    }
  }

  lemma {:induction false} MorePlain(js: seq<Job>, jobs: seq<Job>)
    requires jobs != [] && (jobs[0].Read? || jobs[0].Refer?) && Plain(js)
    ensures Compounds(js + jobs[1..]) < Compounds(jobs)
  {
    PlainCompounds(js);
    CompoundsJoin(js, jobs[1..]);
  }

  /** Jobs one after the other; a call takes one unit of fuel. */
  ghost function Work(step: Step, s: State, jobs: seq<Job>, fuel: nat): (o: Outcome)
    requires Steps(step) && WellFormed(s.tree)
    ensures !o.Endless? && (o.Made? ==> WellFormed(o.state.tree))
    decreases fuel, Compounds(jobs), |jobs|
  {
    if jobs == [] then Made(s)
    else
      assert Proper(s, jobs[0], step(s, jobs[0]));
      match step(s, jobs[0])
      case Stop => Stopped
      case Next(t) => Work(step, t, jobs[1..], fuel)
      case More(js) =>
        MorePlain(js, jobs);
        Work(step, s, js + jobs[1..], fuel)
      case Call(js) =>
        if fuel == 0 then Deep
        else
          var inner := Work(step, s, js, fuel - 1);
          if inner.Made? then Work(step, inner.state, jobs[1..], fuel) else inner
  }

  /** An answer stays the same with more fuel. */
  lemma {:induction false} MoreFuel(step: Step, s: State, jobs: seq<Job>, fuel: nat, more: nat)
    requires Steps(step) && WellFormed(s.tree) && fuel <= more && Work(step, s, jobs, fuel) != Deep
    ensures Work(step, s, jobs, more) == Work(step, s, jobs, fuel)
    decreases fuel, Compounds(jobs), |jobs|
  {
    if jobs == [] { return; }
    var move, rest := step(s, jobs[0]), jobs[1..];
    assert Proper(s, jobs[0], move);
    if move.Next? {
      MoreFuel(step, move.state, rest, fuel, more);
    } else if move.More? {
      MorePlain(move.jobs, jobs);
      MoreFuel(step, s, move.jobs + rest, fuel, more);
    } else if move.Call? {
      var inner := Work(step, s, move.jobs, fuel - 1);
      MoreFuel(step, s, move.jobs, fuel - 1, more - 1);
      if inner.Made? { MoreFuel(step, inner.state, rest, fuel, more); }
    }
  }

  // ---------------------------------------------------------------- running without fuel

  ghost predicate Runnable(s: State, jobs: seq<Job>, seen: set<Pointer>, depth: int) {
    WellFormed(s.tree) && seen <= s.free && Deeper(jobs, depth) && depth >= -1
  }

  /** The keywords asked for in the state at hand: none, once something was erased or stored. */
  function Still(s: State, t: State, seen: set<Pointer>): set<Pointer> {
    if t == s then seen else {}
  }

  lemma {:induction false} MoreRunnable(s: State, js: seq<Job>, jobs: seq<Job>, seen: set<Pointer>, depth: int)
    requires jobs != [] && Runnable(s, jobs, seen, depth) && Proper(s, jobs[0], More(js))
    ensures Runnable(s, js + jobs[1..], seen, depth) && Compounds(js + jobs[1..]) < Compounds(jobs)
  {
    MorePlain(js, jobs);
    assert jobs[0].Read? ==> depth < Rank(jobs[0]);
  }

  /** The same run without fuel: a keyword asked for while it is being compiled, with nothing
      erased and nothing stored in between, will be asked for again and again. */
  ghost function Watch(step: Step, s: State, jobs: seq<Job>, seen: set<Pointer>, depth: int): (o: Outcome)
    requires Steps(step) && Runnable(s, jobs, seen, depth)
    ensures !o.Deep? && (o.Made? ==> WellFormed(o.state.tree) && Onward(s, o.state))
    decreases Potential(s), s.free - seen, 2 * Size(s.tree) - depth, Compounds(jobs), |jobs|
  {
    if jobs == [] then Made(s)
    else
      var job, rest := jobs[0], jobs[1..];
      assert Proper(s, job, step(s, job)) && Deeper(rest, depth);
      assert job.Visit? || job.Parts? ==> depth < Rank(job);
      match step(s, job)
      case Stop => Stopped
      case Next(t) => Watch(step, t, rest, Still(s, t, seen), depth)
      case More(js) =>
        MoreRunnable(s, js, jobs, seen, depth);
        Watch(step, s, js + rest, seen, depth)
      case Call(js) =>
        if job.Ask? && job.pointer in seen then Endless
        else
          var inner := Watch(step, s, js, seen + Asked(job), InCall(job));
          if inner.Made? then Watch(step, inner.state, rest, Still(s, inner.state, seen), depth) else inner
  }

  // ---------------------------------------------------------------- enough fuel

  ghost function Room(s: State, depth: int): nat {
    if depth < 2 * Size(s.tree) then 2 * Size(s.tree) - depth else 0
  }

  /** Fuel for a run in a state of potential cap at most: cubic in the cap. */
  ghost function Bound(s: State, seen: set<Pointer>, depth: int, cap: nat): nat {
    (Potential(s) * (cap + 1) + |s.free - seen|) * (2 * cap + 2) + Room(s, depth)
  }

  lemma Digits(a: nat, b: nat, w: nat, r: nat)
    requires a < b && r < w
    ensures a * w + r < b * w
  {
    assert (a + 1) * w == a * w + w;
    BoundMore(a + 1, b - a - 1, w);
  }

  lemma BoundMore(q: nat, u: nat, w: nat)
    ensures q * w <= (q + u) * w
  {
    assert (q + u) * w == q * w + u * w;
  }

  lemma StillBound(s: State, t: State, seen: set<Pointer>, depth: int, cap: nat)
    requires Onward(s, t) && Potential(s) <= cap && depth >= -1
    ensures Bound(t, Still(s, t, seen), depth, cap) <= Bound(s, seen, depth, cap)
  {
    if t != s {
      var p, q := Potential(t) * (cap + 1) + |t.free - {}|, Potential(s) * (cap + 1);
      assert t.free - {} == t.free;
      Digits(Potential(t), Potential(s), cap + 1, |t.free|);
      Digits(p, q, 2 * cap + 2, Room(t, depth));
      Digits(p, q + |s.free - seen| + 1, 2 * cap + 2, 0);
      BoundMore(q, |s.free - seen|, 2 * cap + 2);
    }
  }

  lemma CallBound(s: State, job: Job, seen: set<Pointer>, depth: int, cap: nat)
    requires Potential(s) <= cap && depth >= -1 && -1 <= InCall(job) < 2 * Size(s.tree)
    requires if job.Ask? then job.pointer in s.free - seen else depth < InCall(job)
    ensures Bound(s, seen + Asked(job), InCall(job), cap) < Bound(s, seen, depth, cap)
  {
    if job.Ask? {
      AskBound(s, job.pointer, seen, depth, cap, Potential(s) * (cap + 1));
    } else {
      DeeperBound(s, seen, depth, InCall(job), cap);
      assert seen + Asked(job) == seen;
    }
  }

  lemma DeeperBound(s: State, seen: set<Pointer>, depth: int, deeper: int, cap: nat)
    requires -1 <= depth < deeper < 2 * Size(s.tree)
    ensures Bound(s, seen, deeper, cap) < Bound(s, seen, depth, cap)
  {
  }

  lemma AskBound(s: State, p: Pointer, seen: set<Pointer>, depth: int, cap: nat, level: nat)
    requires Potential(s) <= cap && depth >= -1 && p in s.free - seen
    ensures (level + |s.free - (seen + {p})|) * (2 * cap + 2) + Room(s, -1)
            < (level + |s.free - seen|) * (2 * cap + 2) + Room(s, depth)
  {
    var now, before := s.free - (seen + {p}), s.free - seen;
    assert before == now + {p} && p !in now;
    Digits(level + |now|, level + |before|, 2 * cap + 2, Room(s, -1));
  }

  /** Unless the run is endless, this much fuel gives its answer. */
  lemma {:induction false} Enough(step: Step, s: State, jobs: seq<Job>, seen: set<Pointer>, depth: int, cap: nat,
        fuel: nat)
    requires Steps(step) && Runnable(s, jobs, seen, depth) && Potential(s) <= cap
    requires fuel >= Bound(s, seen, depth, cap) && Watch(step, s, jobs, seen, depth) != Endless
    ensures Work(step, s, jobs, fuel) == Watch(step, s, jobs, seen, depth)
    decreases Potential(s), s.free - seen, 2 * Size(s.tree) - depth, Compounds(jobs), |jobs|, 1
  {
    if jobs == [] { return; }
    var move := step(s, jobs[0]);
    assert Proper(s, jobs[0], move) && Deeper(jobs[1..], depth);
    if move.Next? {
      StillBound(s, move.state, seen, depth, cap);
      Enough(step, move.state, jobs[1..], Still(s, move.state, seen), depth, cap, fuel);
    } else if move.More? {
      MoreRunnable(s, move.jobs, jobs, seen, depth);
      Enough(step, s, move.jobs + jobs[1..], seen, depth, cap, fuel);
    } else if move.Call? {
      EnoughCall(step, s, jobs, seen, depth, cap, fuel);
    }
  }

  /** The case of a call. */
  lemma {:induction false} EnoughCall(step: Step, s: State, jobs: seq<Job>, seen: set<Pointer>, depth: int, cap: nat,
        fuel: nat)
    requires Steps(step) && Runnable(s, jobs, seen, depth) && Potential(s) <= cap
    requires fuel >= Bound(s, seen, depth, cap) && Watch(step, s, jobs, seen, depth) != Endless
    requires jobs != [] && step(s, jobs[0]).Call?
    ensures Work(step, s, jobs, fuel) == Watch(step, s, jobs, seen, depth)
    decreases Potential(s), s.free - seen, 2 * Size(s.tree) - depth, Compounds(jobs), |jobs|, 0
  {
    var job, rest := jobs[0], jobs[1..];
    var js := step(s, job).jobs;
    assert Proper(s, job, step(s, job)) && Deeper(rest, depth);
    assert job.Visit? || job.Parts? ==> depth < Rank(job);
    CallBound(s, job, seen, depth, cap);
    Enough(step, s, js, seen + Asked(job), InCall(job), cap, fuel - 1);
    var inner := Watch(step, s, js, seen + Asked(job), InCall(job));
    if inner.Made? {
      StillBound(s, inner.state, seen, depth, cap);
      Enough(step, inner.state, rest, Still(s, inner.state, seen), depth, cap, fuel);
    }
    CallAgrees(step, s, jobs, seen, depth, fuel);
  }

  lemma {:induction false} CallAgrees(step: Step, s: State, jobs: seq<Job>, seen: set<Pointer>, depth: int, fuel: nat)
    requires Steps(step) && Runnable(s, jobs, seen, depth) && jobs != [] && step(s, jobs[0]).Call? && fuel > 0
    requires !(jobs[0].Ask? && jobs[0].pointer in seen)
    requires Deeper(jobs[1..], depth) && Proper(s, jobs[0], step(s, jobs[0]))
    requires Runnable(s, step(s, jobs[0]).jobs, seen + Asked(jobs[0]), InCall(jobs[0]))
    requires var inner := Watch(step, s, step(s, jobs[0]).jobs, seen + Asked(jobs[0]), InCall(jobs[0]));
      && Work(step, s, step(s, jobs[0]).jobs, fuel - 1) == inner
      && (inner.Made? ==>
            Work(step, inner.state, jobs[1..], fuel) ==
              Watch(step, inner.state, jobs[1..], Still(s, inner.state, seen), depth))
    ensures Work(step, s, jobs, fuel) == Watch(step, s, jobs, seen, depth)
  {
  }

  // ---------------------------------------------------------------- no fuel is enough

  /** Asking for any of these keywords exhausts any fuel up to this much. */
  ghost predicate Hangs(step: Step, s: State, seen: set<Pointer>, fuel: nat)
    requires Steps(step) && WellFormed(s.tree)
  {
    forall p, f: nat | p in seen && f <= fuel :: Work(step, s, [Ask(p)], f) == Deep
  }

  lemma {:induction false} NeverEnough(step: Step, s: State, jobs: seq<Job>, seen: set<Pointer>, depth: int, fuel: nat)
    requires Steps(step) && Runnable(s, jobs, seen, depth)
    requires Watch(step, s, jobs, seen, depth) == Endless && Hangs(step, s, seen, fuel)
    ensures Work(step, s, jobs, fuel) == Deep
    decreases fuel, Potential(s), s.free - seen, 2 * Size(s.tree) - depth, Compounds(jobs), |jobs|
  {
    var job, rest := jobs[0], jobs[1..];
    var move := step(s, job);
    assert Proper(s, job, move) && Deeper(rest, depth);
    if move.Next? {
      NeverEnough(step, move.state, rest, Still(s, move.state, seen), depth, fuel);
    } else if move.More? {
      MoreRunnable(s, move.jobs, jobs, seen, depth);
      NeverEnough(step, s, move.jobs + rest, seen, depth, fuel);
    } else if fuel > 0 {
      CallHangs(step, s, jobs, seen, depth, fuel);
    }
  }

  lemma {:induction false} OneCall(step: Step, s: State, job: Job, fuel: nat)
    requires Steps(step) && WellFormed(s.tree) && step(s, job).Call? && fuel > 0
    ensures Work(step, s, [job], fuel) == Work(step, s, step(s, job).jobs, fuel - 1)
  {
    var one, inner := [job], Work(step, s, step(s, job).jobs, fuel - 1);
    assert one[0] == job && one[1..] == [] && Proper(s, job, step(s, job));
    if inner.Made? { assert Work(step, inner.state, one[1..], fuel) == inner; }
  }

  /** The case of a call. */
  lemma {:induction false} CallHangs(step: Step, s: State, jobs: seq<Job>, seen: set<Pointer>, depth: int, fuel: nat)
    requires Steps(step) && Runnable(s, jobs, seen, depth) && jobs != [] && step(s, jobs[0]).Call? && fuel > 0
    requires Watch(step, s, jobs, seen, depth) == Endless && Hangs(step, s, seen, fuel)
    ensures Work(step, s, jobs, fuel) == Deep
    decreases fuel, Potential(s), s.free - seen, 2 * Size(s.tree) - depth, Compounds(jobs), |jobs|, 0
  {
    var job, rest := jobs[0], jobs[1..];
    var js := step(s, job).jobs;
    assert Proper(s, job, step(s, job)) && Deeper(rest, depth);
    if job.Ask? && job.pointer in seen {
      assert job == Ask(job.pointer) && Work(step, s, [job], fuel) == Deep;
      OneCall(step, s, job, fuel);
    } else if Watch(step, s, js, seen + Asked(job), InCall(job)) == Endless {
      if job.Ask? { AskHangs(step, s, job.pointer, seen, depth, fuel); }
      NeverEnough(step, s, js, seen + Asked(job), InCall(job), fuel - 1);
    } else if Work(step, s, js, fuel - 1) != Deep {
      AnswersAgree(step, s, js, seen + Asked(job), InCall(job), fuel - 1);
      var t := Work(step, s, js, fuel - 1).state;
      NeverEnough(step, t, rest, Still(s, t, seen), depth, fuel);
    }
  }

  lemma {:induction false} AskHangs(step: Step, s: State, p: Pointer, seen: set<Pointer>, depth: int, fuel: nat)
    requires Steps(step) && Runnable(s, [Ask(p)], seen, depth) && fuel > 0
    requires Watch(step, s, [Ask(p)], seen, depth) == Endless && Hangs(step, s, seen, fuel)
    ensures Hangs(step, s, seen + {p}, fuel - 1)
    decreases fuel, 0
  {
    forall q, f: nat | q in seen + {p} && f <= fuel - 1 ensures Work(step, s, [Ask(q)], f) == Deep {
      if q !in seen { NeverEnough(step, s, [Ask(p)], seen, depth, f); }
    }
  }

  lemma {:induction false} AnswersAgree(step: Step, s: State, jobs: seq<Job>, seen: set<Pointer>, depth: int, fuel: nat)
    requires Steps(step) && Runnable(s, jobs, seen, depth)
    requires Watch(step, s, jobs, seen, depth) != Endless && Work(step, s, jobs, fuel) != Deep
    ensures Work(step, s, jobs, fuel) == Watch(step, s, jobs, seen, depth)
  {
    var enough := Bound(s, seen, depth, Potential(s)) + fuel;
    Enough(step, s, jobs, seen, depth, Potential(s), enough);
    MoreFuel(step, s, jobs, fuel, enough);
  }

  // ---------------------------------------------------------------- when compilation ends

  /** Compiling ends within fuel cubic in the size of the keywords and the number of URIs, or with
      no fuel at all; it does not end exactly when some keyword asks for itself before anything
      was erased or stored. */
  lemma {:induction false} EndlessIff(s: State, jobs: seq<Job>)
    requires WellFormed(s.tree) && Deeper(jobs, -1)
    ensures Steps(Now)
    ensures Watch(Now, s, jobs, {}, -1) == Endless <==> forall fuel: nat :: Work(Now, s, jobs, fuel) == Deep
    ensures Watch(Now, s, jobs, {}, -1) != Endless ==>
      forall fuel: nat | fuel >= Bound(s, {}, -1, Potential(s)) ::
        Work(Now, s, jobs, fuel) == Watch(Now, s, jobs, {}, -1)
  {
    NowSteps();
    if Watch(Now, s, jobs, {}, -1) == Endless {
      forall fuel: nat ensures Work(Now, s, jobs, fuel) == Deep {
        NeverEnough(Now, s, jobs, {}, -1, fuel);
      }
    } else {
      forall fuel: nat | fuel >= Bound(s, {}, -1, Potential(s))
        ensures Work(Now, s, jobs, fuel) == Watch(Now, s, jobs, {}, -1)
      {
        Enough(Now, s, jobs, {}, -1, Potential(s), fuel);
      }
      assert Work(Now, s, jobs, Bound(s, {}, -1, Potential(s))) != Deep;
    }
  }
}
