/** How the steps of compilation in place and those of the compiler go together: they take the same
    branch, unless a keyword that is being compiled would be touched. */

module InPlaceSteps {
  import opened Wrappers
  import opened Json
  import opened SchemaGraph
  import opened Documents
  import opened Registry
  import opened Library
  import opened Compiler
  import opened InPlace
  import S = Strings
  import U = Uri

  /** The state shows what the registry shows of one file, at one pointer. */
  ghost predicate Shows(reg: Registry, location: string, s: State, p: Pointer) {
    && s.tree == File(reg.files, location).unknown
    && (p in s.free <==> Free(reg, Key(location, S.PointerText(p))))
  }

  /** The places of one file. */
  ghost function PointersIn(active: set<Place>, location: string): set<Pointer> {
    set p | p in active && p.location == location :: p.pointer
  }

  /** The job would look into, or erase, a keyword that is being compiled, or what is around it. */
  ghost predicate Touches(s: State, job: Job, active: set<Pointer>) {
    match job
    case Ask(p) =>
      p in s.free && p != [] && !At(s.tree, p).OutOfRange? && exists a | a in active :: a <= p || p <= a
    case Cut(at, key) => at == [] && exists a | a in active :: a <= [key] || [key] <= a
    case Visit(_, _) => false
    case Parts(_, _) => false
    case Read(_, _, _) => false
    case Refer(_) => false
    case Store(_) => false
  }

  lemma ApartPointers(active: set<Place>, location: string, p: Pointer)
    ensures Apart(Place(location, p), active) <==>
      forall a | a in PointersIn(active, location) :: !(a <= p) && !(p <= a)
  {
    if !Apart(Place(location, p), active) {
      var q :| q in active && Overlap(q, Place(location, p));
      assert q.pointer in PointersIn(active, location);
    }
    forall a | a in PointersIn(active, location) && Apart(Place(location, p), active) ensures !(a <= p) && !(p <= a) {
      var q :| q in active && q.location == location && q.pointer == a;
      assert !Overlap(q, Place(location, p));
    }
  }

  /** The compiler cuts a run off, because a reference looks into a keyword being compiled, exactly
      where the machine would touch it; everywhere else the two take the same branch. */
  lemma AskAlike(reg: Registry, after: Registry, uri: U.Uri, n: Id, active: set<Place>, s: State)
    requires uri.identifier == "" && uri.pointer != [] && Shows(reg, U.Location(uri), s, uri.pointer)
    ensures LooksInside(reg, uri, active) <==> Touches(s, Ask(uri.pointer), PointersIn(active, U.Location(uri)))
    ensures GivenOut(reg, after, uri, n) ==>
      match Now(s, Ask(uri.pointer))
      case Next(t) => t == s && if Free(reg, KeyOf(uri)) then WaitsFor(reg, after, KeyOf(uri), n) else after == reg
      case Call(js) =>
        && js == [Visit(uri.pointer, uri.pointer), Cut([], S.PointerText(uri.pointer))]
        && TurnedInto(reg, after, uri, At(s.tree, uri.pointer).json, n)
      case Stop => At(s.tree, uri.pointer).ParseError?
      case More(_) => false
  {
    ApartPointers(active, U.Location(uri), uri.pointer);
  }

  /** The same for forgetting a keyword under the text of its pointer. */
  lemma ForgetAlike(uri: U.Uri, active: set<Place>, s: State)
    requires uri.identifier == ""
    ensures Apart(Place(U.Location(uri), [U.Fragment(uri)]), active) <==>
      !Touches(s, Cut([], S.PointerText(uri.pointer)), PointersIn(active, U.Location(uri)))
  {
    ApartPointers(active, U.Location(uri), [U.Fragment(uri)]);
  }
}
