/** Searching, splitting and escaping of strings, and JSON pointers written as text. */

module Strings {
  import opened Wrappers

  /** A digit of either hexadecimal alphabet. */
  ghost predicate IsHexDigit(c: char, v: nat) {
    v < 16 && (c == "0123456789abcdef"[v] || c == "0123456789ABCDEF"[v])
  }

  // ---------------------------------------------------------------- searching

  predicate OccursAt(s: string, pattern: string, i: nat) {
    i + |pattern| <= |s| && s[i..i + |pattern|] == pattern
  }

  /** Position of the first occurrence. */
  function Find(s: string, pattern: string): (r: Option<nat>)
    ensures r.Some? ==> OccursAt(s, pattern, r.value)
    ensures r.Some? ==> forall i: nat | i < r.value :: !OccursAt(s, pattern, i)
    ensures r.None? ==> forall i: nat :: !OccursAt(s, pattern, i)
  {
    FindFrom(s, pattern, 0)
  }

  function FindFrom(s: string, pattern: string, from: nat): (r: Option<nat>)
    requires from <= |s|
    ensures r.Some? ==> r.value >= from && OccursAt(s, pattern, r.value)
    ensures r.Some? ==> forall i: nat | from <= i < r.value :: !OccursAt(s, pattern, i)
    ensures r.None? ==> forall i: nat | from <= i :: !OccursAt(s, pattern, i)
    decreases |s| - from
  {
    if OccursAt(s, pattern, from) then Some(from)
    else if from == |s| then None
    else FindFrom(s, pattern, from + 1)
  }

  /** Position of the first occurrence of a character at or after `from`. */
  function FindChar(s: string, c: char, from: nat): (r: Option<nat>)
    requires from <= |s|
    ensures r.Some? ==> from <= r.value < |s| && s[r.value] == c && forall i | from <= i < r.value :: s[i] != c
    ensures r.None? ==> forall i | from <= i < |s| :: s[i] != c
    decreases |s| - from
  {
    if from == |s| then None else if s[from] == c then Some(from) else FindChar(s, c, from + 1)
  }

  /** Position of the last occurrence of a character before `end`. */
  function RFindChar(s: string, c: char, end: nat): (r: Option<nat>)
    requires end <= |s|
    ensures r.Some? ==> r.value < end && s[r.value] == c && forall i | r.value < i < end :: s[i] != c
    ensures r.None? ==> forall i | 0 <= i < end :: s[i] != c
  {
    if end == 0 then None else if s[end - 1] == c then Some(end - 1) else RFindChar(s, c, end - 1)
  }

  // ---------------------------------------------------------------- JSON-pointer escaping

  function EscapeChar(c: char): string {
    if c == '~' then "~0" else if c == '/' then "~1" else [c]
  }

  /** RFC 6901, section 4: one substitution per character. */
  function Escape(s: string): string {
    if s == [] then [] else EscapeChar(s[0]) + Escape(s[1..])
  }

  predicate WellEscaped(s: string) {
    if s == [] then true
    else if s[0] == '~' then |s| >= 2 && (s[1] == '0' || s[1] == '1') && WellEscaped(s[2..])
    else WellEscaped(s[1..])
  }

  function Unescape(s: string): string
    requires WellEscaped(s)
  {
    if s == [] then []
    else if s[0] == '~' then [if s[1] == '0' then '~' else '/'] + Unescape(s[2..])
    else [s[0]] + Unescape(s[1..])
  }

  /** The escaped text has no slash, only complete escapes, and reads back as the original. */
  lemma {:induction false} EscapeRoundTrip(s: string)
    ensures '/' !in Escape(s)
    ensures WellEscaped(Escape(s)) && Unescape(Escape(s)) == s
  {
    if s != [] {
      EscapeRoundTrip(s[1..]);
      var e := Escape(s);
      if s[0] == '~' || s[0] == '/' {
        assert e[2..] == Escape(s[1..]);
      } else {
        assert e[1..] == Escape(s[1..]);
      }
      assert s == [s[0]] + s[1..];
    }
  }

  lemma {:induction false} EscapeInjective(a: string, b: string)
    requires Escape(a) == Escape(b)
    ensures a == b
  {
    EscapeRoundTrip(a);
    EscapeRoundTrip(b);
  }

  /** Every occurrence of one character replaced by a string. */
  function Substitute(s: string, c: char, with: string): string {
    if s == [] then [] else (if s[0] == c then with else [s[0]]) + Substitute(s[1..], c, with)
  }

  lemma {:induction false} SubstituteConcat(a: string, b: string, c: char, with: string)
    ensures Substitute(a + b, c, with) == Substitute(a, c, with) + Substitute(b, c, with)
  {
    if a == [] {
      assert a + b == b;
    } else {
      assert (a + b)[1..] == a[1..] + b;
      SubstituteConcat(a[1..], b, c, with);
    }
  }

  lemma {:induction false} SubstituteAbsent(s: string, c: char, with: string)
    requires c !in s
    ensures Substitute(s, c, with) == s
  {
    if s != [] {
      SubstituteAbsent(s[1..], c, with);
    }
  }

  /** Escaping tildes first and slashes second substitutes each character once. */
  lemma {:induction false} TwoPassesEscape(s: string)
    ensures Substitute(Substitute(s, '~', "~0"), '/', "~1") == Escape(s)
  {
    if s != [] {
      TwoPassesEscape(s[1..]);
      var first := if s[0] == '~' then "~0" else [s[0]];
      SubstituteConcat(first, Substitute(s[1..], '~', "~0"), '/', "~1");
      assert Substitute(first, '/', "~1") == EscapeChar(s[0]) by {
        if s[0] == '~' {
          SubstituteAbsent(first, '/', "~1");
        } else {
          assert first[1..] == [];
        }
      }
    }
  }

  /** What one replacement in `done + todo` does, k being the first occurrence in `todo`. */
  lemma ReplaceOnce(done: string, todo: string, c: char, with: string, k: nat)
    requires k < |todo| && todo[k] == c && c !in todo[..k]
    ensures
      var l, at, rest := done + todo, |done| + k, todo[k + 1..];
      && l[..at] + with + l[at + 1..] == (done + todo[..k] + with) + rest
      && done + Substitute(todo, c, with) == (done + todo[..k] + with) + Substitute(rest, c, with)
  {
    var front, rest := todo[..k], todo[k + 1..];
    SubstituteAbsent(front, c, with);
    SubstituteConcat(front, todo[k..], c, with);
    assert todo == front + todo[k..] && todo[k..][0] == c && todo[k..][1..] == rest;
    assert Substitute(todo[k..], c, with) == with + Substitute(rest, c, with);
    Joins(done, front, with, Substitute(rest, c, with));
    assert (done + todo)[..|done| + k] == done + front && (done + todo)[|done| + k + 1..] == rest;
  }

  lemma Joins(a: string, b: string, c: string, d: string)
    ensures a + (b + (c + d)) == (a + b + c) + d
  {
  }

  /** One pass of `json_uri::escape`: find, replace in place, step over the replacement. */
  method ReplaceEach(s: string, c: char, with: string) returns (l: string)
    ensures l == Substitute(s, c, with)
  {
    l := s;
    var pos := 0;
    ghost var done, todo := [], s;  // l is done + todo, and pos stands between them
    assert [] + Substitute(s, c, with) == Substitute(s, c, with) && [] + s == s;
    while true
      invariant l == done + todo && pos == |done|
      invariant done + Substitute(todo, c, with) == Substitute(s, c, with)
      decreases |todo|
    {
      var found := FindChar(l, c, pos);
      assert forall i | 0 <= i < |todo| :: todo[i] == l[pos + i];
      if found.None? {
        assert c !in todo;
        SubstituteAbsent(todo, c, with);
        break;
      }
      ghost var k := found.value - pos;
      assert c !in todo[..k];
      ReplaceOnce(done, todo, c, with, k);
      l := l[..found.value] + with + l[found.value + 1..];
      pos := found.value + |with|;
      done, todo := done + todo[..k] + with, todo[k + 1..];
    }
  }

  /** `json_uri::escape`. */
  method EscapeInPlace(src: string) returns (l: string)
    ensures l == Escape(src)
  {
    l := ReplaceEach(src, '~', "~0");
    l := ReplaceEach(l, '/', "~1");
    TwoPassesEscape(src);
  }

  // ---------------------------------------------------------------- splitting

  /** The parts between separators: one more than there are separators. */
  function Split(s: string, c: char): (r: seq<string>)
    ensures |r| >= 1
  {
    if s == [] then [[]]
    else
      var rest := Split(s[1..], c);
      if s[0] == c then [[]] + rest else [[s[0]] + rest[0]] + rest[1..]
  }

  /** The parts, each behind a separator. */
  function Prefixed(parts: seq<string>, c: char): string {
    if parts == [] then [] else [c] + parts[0] + Prefixed(parts[1..], c)
  }

  lemma {:induction false} SplitPlain(part: string, tail: string, c: char)
    requires c !in part
    ensures Split(part + tail, c) == [part + Split(tail, c)[0]] + Split(tail, c)[1..]
  {
    if part == [] {
      assert part + tail == tail;
      assert [] + Split(tail, c)[0] == Split(tail, c)[0];
    } else {
      assert (part + tail)[1..] == part[1..] + tail;
      SplitPlain(part[1..], tail, c);
      assert part == [part[0]] + part[1..];
      assert [part[0]] + (part[1..] + Split(tail, c)[0]) == part + Split(tail, c)[0];
    }
  }

  lemma {:induction false} SplitPrefixed(parts: seq<string>, c: char)
    requires parts != [] && forall i | 0 <= i < |parts| :: c !in parts[i]
    ensures Split(Prefixed(parts, c)[1..], c) == parts
  {
    var tail := Prefixed(parts[1..], c);
    assert Prefixed(parts, c)[1..] == parts[0] + tail;
    SplitPlain(parts[0], tail, c);
    if |parts| == 1 {
      assert tail == [];
      assert parts == [parts[0]];
      assert parts[0] + [] == parts[0];
    } else {
      SplitPrefixed(parts[1..], c);
      assert tail[0] == c;
      assert Split(tail, c) == [[]] + Split(tail[1..], c);
      assert parts[0] + [] == parts[0];
      assert parts == [parts[0]] + parts[1..];
    }
  }

  // ---------------------------------------------------------------- JSON pointers as text

  function PointerText(tokens: seq<string>): string {
    Prefixed(Escaped(tokens), '/')
  }

  function Escaped(tokens: seq<string>): (r: seq<string>)
    ensures |r| == |tokens| && forall i | 0 <= i < |tokens| :: r[i] == Escape(tokens[i])
  {
    seq(|tokens|, i requires 0 <= i < |tokens| => Escape(tokens[i]))
  }

  /** The constructor of a JSON pointer from text that starts with a slash. */
  function ParsePointer(s: string): Option<seq<string>>
    requires s != [] && s[0] == '/'
  {
    var parts := Split(s[1..], '/');
    if forall i | 0 <= i < |parts| :: WellEscaped(parts[i]) then
      Some(seq(|parts|, i requires 0 <= i < |parts| => Unescape(parts[i])))
    else None
  }

  lemma PointerRoundTrip(tokens: seq<string>)
    requires tokens != []
    ensures var s := PointerText(tokens); s != [] && s[0] == '/' && ParsePointer(s) == Some(tokens)
  {
    var parts := Escaped(tokens);
    forall i | 0 <= i < |tokens| ensures '/' !in parts[i] && WellEscaped(parts[i]) && Unescape(parts[i]) == tokens[i] {
      EscapeRoundTrip(tokens[i]);
    }
    SplitPrefixed(parts, '/');
    var s := PointerText(tokens);
    assert Split(s[1..], '/') == parts;
    assert seq(|parts|, i requires 0 <= i < |parts| => Unescape(parts[i])) == tokens;
  }

  /** The examples of RFC 6901, section 5. */
  lemma PointerExamples()
    ensures PointerText(["foo", "0"]) == "/foo/0" && PointerText([""]) == "/"
    ensures PointerText(["a/b"]) == "/a~1b" && PointerText(["m~n"]) == "/m~0n"
  {
    assert Escape("a/b") == "a" + ("~1" + "b") == "a~1b" && Escape("m~n") == "m" + ("~0" + "n") == "m~0n";
    assert Escape("foo") == "foo" && Escape("0") == "0";
    assert Escaped(["foo", "0"]) == ["foo", "0"] && Escaped([""]) == [""];
    assert Escaped(["a/b"]) == ["a~1b"] && Escaped(["m~n"]) == ["m~0n"];
    assert Prefixed(["0"], '/') == "/0";
  }
}
