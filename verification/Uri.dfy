/** JSON-schema URIs: splitting, resolution against a base, and the stability of locations. */

module Uri {
  import opened Wrappers
  import opened Strings
  import Percent

  datatype Uri = Uri(urn: string, scheme: string, authority: string, path: string, pointer: seq<string>,
    identifier: string)

  /** The exceptions of `update`, and the fragments on which its decoding loop never ends. */
  datatype UriError = PathOnUrn | BadPointer | Unending

  const Empty := Uri("", "", "", "", [], "")

  function LocationPart(s: string): string {
    var hash := FindChar(s, '#', 0);
    if hash.None? then s else s[..hash.value]
  }

  /** The fragment as written, empty when there is no '#'. */
  function FragmentPart(s: string): string {
    var hash := FindChar(s, '#', 0);
    if hash.None? then "" else s[hash.value + 1..]
  }

  function WithLocation(u: Uri, location: string): Result<Uri, UriError> {
    if location == "" then Ok(u)
    else if OccursAt(location, "urn:", 0) then Ok(u.(urn := location, scheme := "", authority := "", path := ""))
    else
      var proto := Find(location, "://");
      if proto.Some? then
        var pos := proto.value + 3;
        var slash := FindChar(location, '/', pos);
        Ok(u.(urn := "", scheme := location[..proto.value],
              authority := if slash.Some? then location[pos..slash.value] else u.authority,
              path := if slash.Some? then location[slash.value..] else u.path + location[pos..]))
      else if u.urn != "" then Err(PathOnUrn)
      else if location[0] == '/' then Ok(u.(path := location))
      else
        var last := RFindChar(u.path, '/', |u.path|);
        Ok(u.(path := u.path[..last.GetOr(|u.path|)] + "/" + location))
  }

  function WithFragment(u: Uri, fragment: string): Result<Uri, UriError> {
    if fragment != "" && fragment[0] == '/' then
      match ParsePointer(fragment)
      case None => Err(BadPointer)
      case Some(tokens) => Ok(u.(pointer := tokens, identifier := ""))
    else Ok(u.(pointer := [], identifier := fragment))
  }

  /** `update`, as a function of the stored value. */
  function Updated(u: Uri, s: string): Result<Uri, UriError> {
    match Percent.Decoded(FragmentPart(s))
    case None => Err(Unending)
    case Some(fragment) =>
      match WithLocation(u, LocationPart(s))
      case Err(e) => Err(e)
      case Ok(v) => WithFragment(v, fragment)
  }

  function Parse(s: string): Result<Uri, UriError> { Updated(Empty, s) }

  function Derive(u: Uri, s: string): Result<Uri, UriError> { Updated(u, s) }

  /** The pointer a reference brings along, whatever it is resolved from. */
  function PointerIn(s: string): seq<string> {
    match Percent.Decoded(FragmentPart(s))
    case None => []
    case Some(fragment) =>
      if fragment != "" && fragment[0] == '/' then ParsePointer(fragment).GetOr([]) else []
  }

  lemma DerivedPointer(u: Uri, s: string)
    requires Derive(u, s).Ok?
    ensures Derive(u, s).value.pointer == PointerIn(s)
  {
  }

  function Append(u: Uri, field: string): Uri {
    if u.identifier != "" then u else u.(pointer := u.pointer + [field])
  }

  function Location(u: Uri): string {
    if u.urn != "" then u.urn
    else (if u.scheme != "" then u.scheme + "://" else "") + (u.authority + u.path)
  }

  function Fragment(u: Uri): string {
    if u.identifier == "" then PointerText(u.pointer) else u.identifier
  }

  // ---------------------------------------------------------------- the object

  class JsonUri {
    var urn: string
    var scheme: string
    var authority: string
    var path: string
    var pointer: seq<string>
    var identifier: string

    function Value(): Uri
      reads this
    {
      Uri(urn, scheme, authority, path, pointer, identifier)
    }

    constructor (u: Uri)
      ensures Value() == u
    {
      urn, scheme, authority := u.urn, u.scheme, u.authority;
      path, pointer, identifier := u.path, u.pointer, u.identifier;
    }

    method UpdateLocation(location: string) returns (r: Result<(), UriError>)
      modifies this
      ensures r.Ok? ==> WithLocation(old(Value()), location) == Ok(Value())
      ensures r.Err? ==>
        r.error == PathOnUrn && Value() == old(Value()) && WithLocation(old(Value()), location) == Err(PathOnUrn)
    {
      if location != "" {
        if OccursAt(location, "urn:", 0) {
          urn := location;
          scheme, authority, path := "", "", "";
        } else {
          var pos := 0;
          var proto := Find(location, "://");
          if proto.Some? {
            urn := "";
            scheme := location[..proto.value];
            pos := 3 + proto.value;
            var slash := FindChar(location, '/', pos);
            if slash.Some? {
              authority := location[pos..slash.value];
              pos := slash.value;
            }
          }
          var rest := location[pos..];
          if urn != "" && rest != "" {
            return Err(PathOnUrn);
          }
          if rest != "" && rest[0] == '/' {
            path := rest;
          } else if pos == 0 {
            var last := RFindChar(path, '/', |path|);
            path := path[..last.GetOr(|path|)] + "/" + rest;
          } else {
            path := path + rest;
          }
        }
      }
      return Ok(());
    }

    /** Replaces all or part of the stored value; a failure leaves what had been stored by then. */
    method Update(uri: string) returns (r: Result<(), UriError>)
      requires Percent.Decoded(FragmentPart(uri)).Some?
      modifies this
      ensures r.Ok? ==> Updated(old(Value()), uri) == Ok(Value())
      ensures r.Err? ==> Updated(old(Value()), uri) == Err(r.error)
      ensures r == Err(PathOnUrn) ==> Value() == old(Value())
      ensures r == Err(BadPointer) ==>
        WithLocation(old(Value()), LocationPart(uri)).Ok?
        && Value() == WithLocation(old(Value()), LocationPart(uri)).value.(pointer := [], identifier := "")
    {
      var fragment := "";
      var separator := FindChar(uri, '#', 0);
      if separator.Some? {
        fragment := Percent.DecodeInPlace(uri[separator.value + 1..]);
      }
      var location := if separator.Some? then uri[..separator.value] else uri;
      var moved := UpdateLocation(location);
      if moved.Err? {
        return moved;
      }
      pointer, identifier := [], "";
      if fragment != "" && fragment[0] == '/' {
        var tokens := ParsePointer(fragment);
        if tokens.None? {
          return Err(BadPointer);
        }
        pointer := tokens.value;
      } else {
        identifier := fragment;
      }
      return Ok(());
    }

    /** `derive`: a copy, updated. */
    method Derived(uri: string) returns (r: Result<JsonUri, UriError>)
      requires Percent.Decoded(FragmentPart(uri)).Some?
      ensures r.Ok? ==> fresh(r.value) && Derive(Value(), uri) == Ok(r.value.Value())
      ensures r.Err? ==> Derive(Value(), uri) == Err(r.error)
    {
      var u := new JsonUri(Value());
      var done := u.Update(uri);
      r := if done.Ok? then Ok(u) else Err(done.error);
    }

    /** `append`: a copy with one more token, unless it has a plain name. */
    method Appended(field: string) returns (u: JsonUri)
      ensures fresh(u) && u.Value() == Append(Value(), field)
    {
      u := new JsonUri(Value());
      if u.identifier == "" {
        u.pointer := u.pointer + [field];
      }
    }
  }

  // ---------------------------------------------------------------- relative references

  ghost predicate SimpleName(s: string) {
    s != "" && forall i | 0 <= i < |s| :: s[i] != '#' && s[i] != '/' && s[i] != ':'
  }

  /** A simple name resolved from the root document, or from the file of another simple name,
      gives the file of that name: a set of such files is closed under references among them. */
  lemma SimpleReference(base: string, s: string)
    requires SimpleName(s) && (base == "" || (base[0] == '/' && SimpleName(base[1..])))
    ensures Derive(Empty.(path := base), s) == Ok(Empty.(path := "/" + s))
    ensures Location(Empty.(path := "/" + s)) == "/" + s && '#' !in "/" + s
  {
    assert LocationPart(s) == s && FragmentPart(s) == "";
    forall i: nat ensures !OccursAt(s, "://", i) {
      assert i + 3 <= |s| ==> s[i..i + 3][0] == s[i];
    }
    assert 4 <= |s| ==> s[0..4][3] == s[3];
    assert forall i | 1 <= i < |base| :: base[i] == base[1..][i - 1];
    assert base[..0] + "/" + s == "/" + s;
    assert WithLocation(Empty.(path := base), s) == Ok(Empty.(path := "/" + s));
  }

  // ---------------------------------------------------------------- stable locations

  /** A text that parses to a URI whose location is that very text. */
  ghost predicate Stable(location: string) {
    Parse(location).Ok? && Location(Parse(location).value) == location
  }

  lemma ParseWithoutFragment(s: string)
    requires '#' !in s
    ensures Parse(s) == match WithLocation(Empty,
      s) case Ok(u) => Ok(u.(pointer := [], identifier := "")) case Err(e) => Err(e)
  {
    assert LocationPart(s) == s && FragmentPart(s) == "";
  }

  lemma AbsoluteParts(s: string)
    requires Find(s, "://").Some? && !OccursAt(s, "urn:", 0)
    ensures WithLocation(Empty, s).Ok?
    ensures var i, u := Find(s, "://").value, WithLocation(Empty, s).value;
      u.urn == "" && u.scheme == s[..i] && u.authority + u.path == s[i + 3..]
  {
    var i := Find(s, "://").value;
    var u := WithLocation(Empty, s).value;
    var slash := FindChar(s, '/', i + 3);
    var rest := s[i + 3..];
    if slash.Some? {
      CutAt(s, i + 3, slash.value);
    } else {
      assert u.path == "" + rest && "" + rest == rest;
      assert u.authority + u.path == "" + u.path;
    }
  }

  lemma CutAt(s: string, from: nat, at: nat)
    requires from <= at <= |s|
    ensures s[from..at] + s[at..] == s[from..]
  {
  }

  /** An absolute location is reproduced unless its scheme is empty. */
  lemma AbsoluteLocation(s: string)
    requires Find(s, "://").Some? && !OccursAt(s, "urn:", 0)
    ensures WithLocation(Empty, s).Ok?
    ensures Location(WithLocation(Empty, s).value) == s <==> Find(s, "://").value > 0
  {
    var i := Find(s, "://").value;
    var u := WithLocation(Empty, s).value;
    AbsoluteParts(s);
    var rest := u.authority + u.path;
    if i > 0 {
      JoinThree(s, i);
      assert Location(u) == s[..i] + "://" + rest;
    } else {
      assert u.scheme == "" && Location(u) == "" + rest;
      assert |Location(u)| < |s|;
    }
  }

  lemma JoinThree(s: string, i: nat)
    requires OccursAt(s, "://", i)
    ensures s[..i] + "://" + s[i + 3..] == s
  {
    assert s[i..i + 3] == "://";
    assert s == s[..i] + s[i..i + 3] + s[i + 3..];
  }

  /** Exactly these texts are stable locations. */
  lemma StableIff(s: string)
    requires '#' !in s
    ensures Stable(s) <==>
      || s == ""
      || OccursAt(s, "urn:", 0)
      || (Find(s, "://").Some? && Find(s, "://").value > 0)
      || (Find(s, "://").None? && s[0] == '/')
  {
    ParseWithoutFragment(s);
    if s != "" && !OccursAt(s, "urn:", 0) {
      if Find(s, "://").Some? {
        AbsoluteLocation(s);
      } else if s[0] != '/' {
        assert Location(WithLocation(Empty, s).value) == "" + ("" + ("" + "/" + s));
        assert |Location(WithLocation(Empty, s).value)| > |s|;
      }
    }
  }

  /** What construction, `derive` and `append` keep of a URI, as long as no reference begins
      with "://". */
  ghost predicate Canonical(u: Uri) {
    && '#' !in u.urn && '#' !in u.scheme && '#' !in u.authority && '#' !in u.path
    && (u.urn != "" ==> OccursAt(u.urn, "urn:", 0))
    && (u.urn == "" && u.scheme != "" ==> ProperScheme(u.scheme))
    && (u.urn == "" && u.scheme == "" ==>
      u.authority == "" && (u.path == "" || u.path[0] == '/') && Find(u.path, "://").None?)
  }

  ghost predicate ProperScheme(scheme: string) {
    Find(scheme + "://", "://") == Some(|scheme|) && !OccursAt(scheme + "://", "urn:", 0)
  }

  lemma ProtoInFront(scheme: string, rest: string)
    requires scheme != "" && ProperScheme(scheme)
    ensures Find(scheme + "://" + rest, "://") == Some(|scheme|) && !OccursAt(scheme + "://" + rest, "urn:", 0)
  {
    var head, s := scheme + "://", scheme + "://" + rest;
    assert OccursAt(s, "://", |scheme|);
    forall i: nat | i < |scheme| ensures !OccursAt(s, "://", i) {
      assert !OccursAt(head, "://", i);
      assert head[i..i + 3] == s[i..i + 3];
    }
    assert head[0..4] == s[0..4];
  }

  lemma CanonicalIsStable(u: Uri)
    requires Canonical(u)
    ensures '#' !in Location(u) && Stable(Location(u))
  {
    var s := Location(u);
    if u.urn == "" && u.scheme != "" {
      ProtoInFront(u.scheme, u.authority + u.path);
    } else if u.urn == "" {
      assert s == u.path;
    }
    StableIff(s);
  }

  /** Resolving a relative path keeps "://" out of the path. */
  lemma JoinedPath(base: string, last: nat, rest: string)
    requires Find(base, "://").None? && Find(rest, "://").None? && rest != "" && rest[0] != '/'
    requires (last < |base| && base[last] == '/') || last == |base| == 0
    ensures Find(base[..last] + "/" + rest, "://").None?
  {
    var s := base[..last] + "/" + rest;
    forall i: nat ensures !OccursAt(s, "://", i) {
      if OccursAt(s, "://", i) { ProtoInside(base, last, rest, i); }
    }
  }

  /** "://" cannot straddle the slash that joins two paths. */
  lemma ProtoInside(base: string, last: nat, rest: string, i: nat)
    requires (last < |base| && base[last] == '/') || last == |base| == 0
    requires rest != "" && rest[0] != '/' && OccursAt(base[..last] + "/" + rest, "://", i)
    ensures OccursAt(base, "://", i) || (i > last && OccursAt(rest, "://", i - last - 1))
  {
    var s := base[..last] + "/" + rest;
    assert s[last] == '/' && s[last + 1] == rest[0];
    assert s[i..i + 3][0] == s[i] == ':' && s[i..i + 3][1] == s[i + 1] == '/' && s[i..i + 3][2] == s[i + 2] == '/';
    if i + 2 <= last {
      assert s[i..i + 3] == base[i..i + 3];
    } else if i > last {
      assert s[i..i + 3] == rest[i - last - 1..i - last + 2];
    }
  }

  /** The scheme cut off before the first "://". */
  lemma CutScheme(location: string, i: nat)
    requires Find(location, "://") == Some(i) && i > 0 && !OccursAt(location, "urn:", 0)
    ensures ProperScheme(location[..i])
  {
    var head := location[..i] + "://";
    assert OccursAt(head, "://", i);
    forall h: nat | h < i ensures !OccursAt(head, "://", h) {
      assert location[i..i + 3] == "://";
      assert head == location[..i + 3];
      assert !OccursAt(location, "://", h);
      assert head[h..h + 3] == location[h..h + 3];
    }
    assert head == location[..i + 3];
    assert head[0..4] == location[0..4];
  }

  /** The reference does not begin with "://". */
  ghost predicate ProperReference(s: string) {
    Find(LocationPart(s), "://") != Some(0)
  }

  lemma AbsoluteIsCanonical(u: Uri, location: string)
    requires Canonical(u) && '#' !in location && !OccursAt(location, "urn:", 0)
    requires Find(location, "://").Some? && Find(location, "://").value > 0
    ensures WithLocation(u, location).Ok? && Canonical(WithLocation(u, location).value)
  {
    var i := Find(location, "://").value;
    CutScheme(location, i);
    var v := WithLocation(u, location).value;
    assert v.urn == "" && v.scheme == location[..i];
    assert '#' !in v.authority && '#' !in v.path;
  }

  lemma RelativeIsCanonical(u: Uri, location: string)
    requires Canonical(u) && u.urn == "" && '#' !in location && !OccursAt(location, "urn:", 0)
    requires Find(location, "://").None? && location != ""
    ensures WithLocation(u, location).Ok? && Canonical(WithLocation(u, location).value)
  {
    if location[0] != '/' {
      var last := RFindChar(u.path, '/', |u.path|).GetOr(|u.path|);
      var path := u.path[..last] + "/" + location;
      assert '#' !in path;
      if u.scheme == "" {
        JoinedPath(u.path, last, location);
        assert path[0] == '/' by {
          if last > 0 { assert path[0] == u.path[0]; }
        }
      }
    }
  }

  lemma UpdatedIsCanonical(u: Uri, s: string)
    requires Canonical(u) && ProperReference(s) && Updated(u, s).Ok?
    ensures Canonical(Updated(u, s).value)
  {
    var location := LocationPart(s);
    assert '#' !in location;
    if location != "" && !OccursAt(location, "urn:", 0) {
      if Find(location, "://").Some? {
        AbsoluteIsCanonical(u, location);
      } else {
        RelativeIsCanonical(u, location);
      }
    }
    var v := WithLocation(u, location).value;
    assert Canonical(v);
    var w := Updated(u, s).value;
    assert w.urn == v.urn && w.scheme == v.scheme && w.authority == v.authority && w.path == v.path;
  }

  /** URIs built by construction, `derive` and `append`. */
  datatype Origin = Base(text: string) | Derived(from: Origin, reference: string) | Appended(from: Origin,
    field: string)

  function Built(o: Origin): Result<Uri, UriError> {
    match o
    case Base(text) => Parse(text)
    case Derived(from, reference) =>
      (match Built(from)
       case Err(e) => Err(e)
       case Ok(u) => Derive(u, reference))
    case Appended(from, field) =>
      match Built(from)
      case Err(e) => Err(e)
      case Ok(u) => Ok(Append(u, field))
  }

  ghost predicate ProperOrigin(o: Origin) {
    match o
    case Base(text) => ProperReference(text)
    case Derived(from, reference) => ProperOrigin(from) && ProperReference(reference)
    case Appended(from, _) => ProperOrigin(from)
  }

  /** The location of every such URI parses back to itself, so a file loaded for a location
      is filed under the location that asked for it. */
  lemma {:induction false} BuiltLocationStable(o: Origin)
    requires ProperOrigin(o) && Built(o).Ok?
    ensures Canonical(Built(o).value) && Stable(Location(Built(o).value))
  {
    match o {
      case Base(text) =>
        assert Find("", "://").None?;
        UpdatedIsCanonical(Empty, text);
      case Derived(from, reference) =>
        BuiltLocationStable(from);
        UpdatedIsCanonical(Built(from).value, reference);
      case Appended(from, _) =>
        BuiltLocationStable(from);
    }
    CanonicalIsStable(Built(o).value);
  }

  /** A text that begins with "://" is located behind it. */
  lemma EmptyScheme(s: string)
    requires OccursAt(s, "://", 0) && '#' !in s
    ensures Parse(s).Ok? && Location(Parse(s).value) == s[3..]
  {
    ParseWithoutFragment(s);
    assert s[0..3][0] == s[0] == ':' && "urn:"[0] == 'u';
    assert |s| >= 4 ==> s[0..4][0] == s[0];
    AbsoluteParts(s);
    var u := WithLocation(Empty, s).value;
    assert u.scheme == "" && "" + (u.authority + u.path) == s[3..];
  }

  /** Without the restriction the location can change: "://h/p" is located at "h/p", which
      parses to "/h/p". */
  lemma EmptySchemeUnstable()
    ensures Parse("://h/p").Ok? && Location(Parse("://h/p").value) == "h/p" && !Stable("h/p")
  {
    EmptyScheme("://h/p");
    NoSlashUnstable("h/p");
  }

  lemma NoSlashUnstable(t: string)
    requires t == "h/p"
    ensures !Stable(t)
  {
    assert "://"[0] != t[0] && t[0..3] == t;
    assert t[0] == 'h' && t[0..0] == "";
    StableIff(t);
  }
}
