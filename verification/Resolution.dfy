/** What a reference is resolved to, told by the texts: every form a reference can take, from any
    base, without the searches that the code makes. */

module Resolution {
  import opened Wrappers
  import opened Strings
  import opened Uri
  import Percent

  ghost predicate Contains(s: string, part: string) {
    exists i: nat :: OccursAt(s, part, i)
  }

  lemma ContainsMiddle(front: string, part: string, back: string)
    ensures Contains(front + part + back, part)
  {
    assert OccursAt(front + part + back, part, |front|);
  }

  /** A location that is neither a URN nor an absolute URL. */
  ghost predicate Relative(location: string) {
    location != "" && !("urn:" <= location) && !Contains(location, "://")
  }

  lemma NoFragment(location: string)
    requires '#' !in location
    ensures LocationPart(location) == location && FragmentPart(location) == "" && Percent.Decoded("") == Some("")
  {
  }

  lemma NotAbsolute(location: string)
    requires Relative(location)
    ensures !OccursAt(location, "urn:", 0) && Find(location, "://").None?
  {
    if |location| >= 4 { assert location[0..4] == "urn:" ==> "urn:" <= location; }
  }

  // ---------------------------------------------------------------- the location

  /** A relative path takes the place of what follows the last slash of the base. */
  lemma Sibling(u: Uri, dir: string, last: string, location: string)
    requires u.urn == "" && u.path == dir + "/" + last && '/' !in last
    requires '#' !in location && Relative(location) && location[0] != '/'
    ensures Derive(u, location) == Ok(u.(path := dir + "/" + location, pointer := [], identifier := ""))
  {
    NoFragment(location);
    NotAbsolute(location);
    LastSlash(dir, last);
    assert (dir + "/" + last)[..|dir|] == dir;
  }

  lemma {:induction false} LastSlash(dir: string, last: string)
    requires '/' !in last
    ensures RFindChar(dir + "/" + last, '/', |dir + "/" + last|) == Some(|dir|)
  {
    var path := dir + "/" + last;
    assert path[|dir|] == '/';
    assert forall i | |dir| < i < |path| :: path[i] == last[i - |dir| - 1] && path[i] in last;
  }

  /** Without a slash in the base, it goes behind one. */
  lemma Child(u: Uri, location: string)
    requires u.urn == "" && '/' !in u.path && '#' !in location && Relative(location) && location[0] != '/'
    ensures Derive(u, location) == Ok(u.(path := u.path + "/" + location, pointer := [], identifier := ""))
  {
    NoFragment(location);
    NotAbsolute(location);
    assert u.path[..|u.path|] == u.path;
  }

  /** A path from the root replaces the whole path of the base. */
  lemma Rooted(u: Uri, location: string)
    requires u.urn == "" && '#' !in location && Relative(location) && location[0] == '/'
    ensures Derive(u, location) == Ok(u.(path := location, pointer := [], identifier := ""))
  {
    NoFragment(location);
    NotAbsolute(location);
  }

  /** A URN has no path. */
  lemma PathOfUrn(u: Uri, location: string)
    requires u.urn != "" && '#' !in location && Relative(location)
    ensures Derive(u, location) == Err(PathOnUrn)
  {
    NoFragment(location);
    NotAbsolute(location);
  }

  /** A URN replaces everything. */
  lemma ToUrn(u: Uri, location: string)
    requires '#' !in location && "urn:" <= location
    ensures Derive(u, location) == Ok(Uri(location, "", "", "", [], ""))
  {
    NoFragment(location);
    assert location[0..4] == "urn:";
  }

  /** An absolute URL with a path replaces everything. */
  lemma Absolute(u: Uri, scheme: string, authority: string, path: string)
    requires !Contains(scheme + ":/", "://") && '/' !in authority && "/" <= path
    requires var location := scheme + "://" + authority + path; '#' !in location && !("urn:" <= location)
    ensures Derive(u, scheme + "://" + authority + path) == Ok(Uri("", scheme, authority, path, [], ""))
  {
    var location := scheme + "://" + authority + path;
    NoFragment(location);
    SchemeFound(scheme, authority + path);
    assert location == scheme + "://" + (authority + path);
    var pos := |scheme| + 3;
    assert location[pos..] == authority + path && location[..|scheme|] == scheme;
    SlashFound(location, pos, authority, path);
  }

  lemma SchemeFound(scheme: string, rest: string)
    requires !Contains(scheme + ":/", "://")
    ensures Find(scheme + "://" + rest, "://") == Some(|scheme|)
    ensures OccursAt(scheme + "://" + rest, "urn:", 0) ==> "urn:" <= scheme + "://" + rest
  {
    var location, front := scheme + "://" + rest, scheme + ":/";
    assert OccursAt(location, "://", |scheme|);
    assert front == location[..|scheme| + 2];
    forall i: nat | i < |scheme| ensures !OccursAt(location, "://", i) {
      assert location[i..i + 3] == front[i..i + 3];
      assert !OccursAt(front, "://", i);
    }
    if |location| >= 4 { assert location[0..4] == "urn:" ==> "urn:" <= location; }
  }

  lemma SlashFound(location: string, pos: nat, authority: string, path: string)
    requires pos <= |location| && location[pos..] == authority + path && '/' !in authority && "/" <= path
    ensures FindChar(location, '/', pos) == Some(pos + |authority|)
    ensures location[pos..pos + |authority|] == authority && location[pos + |authority|..] == path
  {
    var rest := authority + path;
    assert forall i | pos <= i < |location| :: location[i] == location[pos..][i - pos] == rest[i - pos];
    assert location[pos + |authority|] == path[0] == '/';
    assert forall i | pos <= i < pos + |authority| :: location[i] == authority[i - pos] && location[i] in authority;
  }

  /** Without a path, an absolute URL keeps the authority of the base and lengthens its path. */
  lemma AbsoluteBare(u: Uri, scheme: string, rest: string)
    requires !Contains(scheme + ":/", "://") && '/' !in rest
    requires var location := scheme + "://" + rest; '#' !in location && !("urn:" <= location)
    ensures Derive(u, scheme + "://" + rest) == Ok(Uri("", scheme, u.authority, u.path + rest, [], ""))
  {
    var location := scheme + "://" + rest;
    NoFragment(location);
    SchemeFound(scheme, rest);
    var pos := |scheme| + 3;
    assert location[pos..] == rest && location[..|scheme|] == scheme;
    assert forall i | pos <= i < |location| :: location[i] == rest[i - pos];
  }

  /** These are all forms: whatever has "://" in it and is no URN is an absolute URL. */
  lemma PartsOf(location: string) returns (scheme: string, authority: string, path: string)
    requires Contains(location, "://")
    ensures location == scheme + "://" + authority + path && !Contains(scheme + ":/", "://")
    ensures '/' !in authority && (path == "" || "/" <= path)
  {
    var i := Find(location, "://").value;
    var rest := location[i + 3..];
    var slash := FindChar(rest, '/', 0).GetOr(|rest|);
    scheme, authority, path := location[..i], rest[..slash], rest[slash..];
    assert rest == authority + path && location[i..i + 3] == "://";
    ThreeParts(location, i);
    FirstHere(location, i);
  }

  lemma ThreeParts(location: string, i: nat)
    requires OccursAt(location, "://", i)
    ensures location == location[..i] + "://" + location[i + 3..]
  {
    assert location == location[..i] + location[i..i + 3] + location[i + 3..];
  }

  lemma FirstHere(location: string, i: nat)
    requires Find(location, "://") == Some(i)
    ensures !Contains(location[..i] + ":/", "://")
  {
    var front := location[..i] + ":/";
    ThreeParts(location, i);
    assert front == location[..i + 2];
    forall h: nat | h + 3 <= |front| ensures !OccursAt(front, "://", h) {
      assert front[h..h + 3] == location[h..h + 3] && !OccursAt(location, "://", h);
    }
  }

  // ---------------------------------------------------------------- the fragment

  /** A reference with a fragment goes where its location goes, and there to the pointer or the
      plain name that the decoded fragment is; alone, it stays in the file. */
  lemma WithFragmentPart(u: Uri, location: string, f: string, text: string)
    requires '#' !in location && Percent.Decoded(f) == Some(text)
    ensures var there, whole := Derive(u, location), Derive(u, location + "#" + f);
      && (location == "" ==> there == Ok(u.(pointer := [], identifier := "")))
      && (there.Err? ==> whole == there)
      && (there.Ok? && !("/" <= text) ==> whole == Ok(there.value.(pointer := [], identifier := text)))
      && (there.Ok? ==> forall tokens | tokens != [] && text == PointerText(tokens) ::
            whole == Ok(there.value.(pointer := tokens, identifier := "")))
  {
    NoFragment(location);
    var s := location + "#" + f;
    assert s[|location|] == '#' && forall i | 0 <= i < |location| :: s[i] == location[i];
    assert FindChar(s, '#', 0) == Some(|location|);
    assert LocationPart(s) == s[..|location|] == location && FragmentPart(s) == s[|location| + 1..] == f;
    forall tokens | tokens != [] && text == PointerText(tokens)
      ensures ParsePointer(text) == Some(tokens) && "/" <= text
    {
      PointerRoundTrip(tokens);
      assert text == ['/'] + text[1..];
    }
  }
}
