/** The percent-decoding loop of `json_uri::update`, which rewrites the fragment in place from
    right to left and wraps its position around below zero. */

module Percent {
  import opened Wrappers
  import opened Strings

  // ---------------------------------------------------------------- two hexadecimal digits

  predicate IsHex(c: char) {
    '0' <= c <= '9' || 'a' <= c <= 'f' || 'A' <= c <= 'F'
  }

  function HexValue(c: char): (v: nat)
    requires IsHex(c)
    ensures v < 16
  {
    if c <= '9' then c as int - '0' as int
    else if c <= 'F' then c as int - 'A' as int + 10
    else c as int - 'a' as int + 10
  }

  predicate IsSpace(c: char) {
    c == ' ' || 9 <= c as int <= 13
  }

  /** `strtoul` in base 16 of two characters, cut to a byte: leading blank, sign and stray
      characters included. */
  function ByteOf(a: char, b: char): char {
    if IsHex(a) then (if IsHex(b) then (16 * HexValue(a) + HexValue(b)) as char else HexValue(a) as char)
    else if !IsHex(b) then 0 as char
    else if a == '-' then ((256 - HexValue(b)) % 256) as char
    else if a == '+' || IsSpace(a) then HexValue(b) as char
    else 0 as char
  }

  /** In words, for digits of either alphabet: two digits, one digit and then something else, and a
      digit behind a sign or a blank; anything else is zero. */
  lemma ByteExactly(a: char, b: char, x: nat, y: nat)
    requires x < 16 && y < 16
    ensures IsHexDigit(a, x) && IsHexDigit(b, y) ==> ByteOf(a, b) as int == 16 * x + y
    ensures IsHexDigit(a, x) && !IsHex(b) ==> ByteOf(a, b) as int == x
    ensures (a == '+' || a == ' ' || a == 9 as char) && IsHexDigit(b, y) ==> ByteOf(a, b) as int == y
    ensures a == '-' && IsHexDigit(b, y) ==> (ByteOf(a, b) as int + y) % 256 == 0 && ByteOf(a, b) as int < 256
    ensures !IsHex(a) && !IsHex(b) ==> ByteOf(a, b) as int == 0
  {
    DigitRead(a, x);
    DigitRead(b, y);
  }

  lemma DigitRead(c: char, v: nat)
    requires v < 16
    ensures IsHexDigit(c, v) ==> IsHex(c) && HexValue(c) == v
  {
    var small, large := "0123456789abcdef", "0123456789ABCDEF";
    assert small[v] as int == if v < 10 then 48 + v else 87 + v;
    assert large[v] as int == if v < 10 then 48 + v else 55 + v;
  }

  // ---------------------------------------------------------------- what the loop computes

  /** Decoding w from right to left, `tail` being the decoded text behind it. */
  function Pass(w: string, tail: string): (r: string)
    ensures |tail| <= |r| + 2 * |w| && |r| <= |w| + |tail|
  {
    if w == [] then tail
    else
      var t := Pass(w[1..], tail);
      if w[0] == '%' && |t| >= 2 then [ByteOf(t[0], t[1])] + t[2..] else [w[0]] + t
  }

  /** Decoding of a text whose first `|w|` characters are still to be examined. A percent sign
      at the very front makes the position wrap: the rewritten text is decoded again, and with
      a single character behind it the loop never ends. */
  function Decode(w: string, tail: string): Option<string>
    decreases |w| + |tail|
  {
    if w == [] then Some(tail)
    else
      var t := Pass(w[1..], tail);
      if w[0] != '%' then Some([w[0]] + t)
      else if |t| == 0 then Some([0 as char])
      else if |t| == 1 then None
      else Decode([ByteOf(t[0], t[1])] + t[2..], [])
  }

  function Decoded(fragment: string): Option<string> { Decode(fragment, []) }

  // ---------------------------------------------------------------- the loop, step by step

  /** Searching before `end`; done when the search falls off the front. */
  datatype Scan = Scan(text: string, end: nat) | Done(text: string)

  ghost predicate ValidScan(s: Scan) {
    s.Scan? ==> s.end <= |s.text|
  }

  /** The next `end` after position i: one before it, or, wrapping around, the whole text. */
  function Before(i: nat, text: string): nat {
    if i == 0 then |text| else i
  }

  function Rewritten(text: string, i: nat): string
    requires i < |text|
  {
    var b := if i + 2 < |text| then ByteOf(text[i + 1], text[i + 2]) else 0 as char;
    text[..i] + [b] + text[if i + 3 <= |text| then i + 3 else |text|..]
  }

  /** One character of the backward search, with the work done at a percent sign. */
  function Step(s: Scan): Scan
    requires ValidScan(s)
  {
    if s.Done? then s
    else if s.end == 0 then Done(s.text)
    else
      var i := s.end - 1;
      if s.text[i] != '%' then Scan(s.text, i)
      else if |s.text| >= 2 && i >= |s.text| - 2 then Scan(s.text, Before(i, s.text))
      else Scan(Rewritten(s.text, i), Before(i, Rewritten(s.text, i)))
  }

  /** What continuing from a state will return. */
  function Result(s: Scan): Option<string>
    requires ValidScan(s)
  {
    match s
    case Done(t) => Some(t)
    case Scan(t, e) => Decode(t[..e], t[e..])
  }

  lemma {:induction false} PassSnoc(w: string, c: char, tail: string)
    ensures Pass(w + [c], tail) == Pass(w, Pass([c], tail))
  {
    if w != [] {
      assert (w + [c])[1..] == w[1..] + [c];
      PassSnoc(w[1..], c, tail);
    } else {
      assert [] + [c] == [c];
    }
  }

  lemma {:induction false} DecodeSnoc(w: string, c: char, tail: string)
    requires w != []
    ensures Decode(w + [c], tail) == Decode(w, Pass([c], tail))
  {
    assert (w + [c])[1..] == w[1..] + [c];
    PassSnoc(w[1..], c, tail);
  }

  lemma {:induction false} PassOne(c: char, tail: string)
    ensures Pass([c], tail) == if c == '%' && |tail| >= 2 then [ByteOf(tail[0], tail[1])] + tail[2..] else [c] + tail
  {
    assert [c][1..] == [];
  }

  /** A step does not change what will be returned. */
  lemma StepKeepsResult(s: Scan)
    requires ValidScan(s)
    ensures Result(Step(s)) == Result(s)
  {
    if s.Scan? && s.end > 0 {
      var t, i := s.text, s.end - 1;
      var w, tail := t[..i], t[i + 1..];
      assert t[..i + 1] == w + [t[i]] && t == w + [t[i]] + tail;
      PassOne(t[i], tail);
      if i > 0 {
        DecodeSnoc(w, t[i], tail);
      }
      if t[i] != '%' || (|t| >= 2 && i >= |t| - 2) {
        assert t[i..] == [t[i]] + tail;
        if t[i] == '%' && i == 0 {
          assert |tail| == 1 && t[..2] == t && t[1..] == tail;
          assert Pass(tail, []) == tail by {
            PassOne(tail[0], []);
            assert tail == [tail[0]];
          }
          assert t[..1][1..] == [];
        }
      } else {
        RewrittenParts(t, i);
        if i == 0 {
          var r := Rewritten(t, 0);
          assert r[..|r|] == r && r[|r|..] == [] && t[..1][1..] == [];
          if |t| == 1 {
            assert r == [0 as char] && Pass(r[1..], []) == [];
          }
        }
      }
    }
  }

  lemma RewrittenParts(t: string, i: nat)
    requires i < |t| && (|t| < 2 || i < |t| - 2)
    ensures |t| >= 2 ==>
      Rewritten(t, i)[..i] == t[..i] && Rewritten(t, i)[i..] == [ByteOf(t[i + 1], t[i + 2])] + t[i + 3..]
    ensures |t| >= 2 ==> t[i + 1..] == [t[i + 1], t[i + 2]] + t[i + 3..]
    ensures |t| < 2 ==> Rewritten(t, i) == [0 as char]
  {
  }

  function Iterate(n: nat, s: Scan): (r: Scan)
    requires ValidScan(s)
    ensures ValidScan(r)
  {
    if n == 0 then s else Iterate(n - 1, Step(s))
  }

  lemma {:induction false} IterateKeepsResult(n: nat, s: Scan)
    requires ValidScan(s)
    ensures Result(Iterate(n, s)) == Result(s)
  {
    if n > 0 {
      StepKeepsResult(s);
      IterateKeepsResult(n - 1, Step(s));
    }
  }

  lemma {:induction false} ReachesDone(s: Scan) returns (n: nat)
    requires ValidScan(s) && Result(s).Some?
    ensures Iterate(n, s) == Done(Result(s).value)
    decreases |s.text|, if '%' in s.text then 1 else 0, if s.Scan? then s.end + 1 else 0
  {
    if s.Done? {
      n := 0;
    } else {
      StepKeepsResult(s);
      var m := ReachesDone(Step(s));
      n := m + 1;
    }
  }

  function Start(fragment: string): Scan { Scan(fragment, |fragment|) }

  /** The loop ends after some number of steps exactly when `Decoded` is defined, and then
      with its value. */
  lemma LoopEndsIffDecoded(fragment: string, r: string)
    ensures (exists n: nat :: Iterate(n, Start(fragment)) == Done(r)) <==> Decoded(fragment) == Some(r)
  {
    assert fragment[..|fragment|] == fragment && fragment[|fragment|..] == [];
    assert Result(Start(fragment)) == Decoded(fragment);
    if n: nat :| Iterate(n, Start(fragment)) == Done(r) {
      IterateKeepsResult(n, Start(fragment));
    }
    if Decoded(fragment) == Some(r) {
      var n := ReachesDone(Start(fragment));
    }
  }

  /** A fragment that does not begin with a percent sign is decoded in a single pass. */
  lemma PlainStartDecodes(fragment: string)
    requires fragment == [] || fragment[0] != '%'
    ensures Decoded(fragment) == Some(if fragment == [] then [] else [fragment[0]] + Pass(fragment[1..], []))
  {
  }

  /** "25", the code of the percent sign, any number of times, and then a single character. */
  predicate PercentsAndOne(x: string) {
    |x| == 1 || (|x| >= 2 && x[0] == '2' && x[1] == '5' && PercentsAndOne(x[2..]))
  }

  lemma {:induction false} PassPlain(w: string)
    requires '%' !in w
    ensures Pass(w, []) == w
  {
    if w != [] {
      assert w[0] in w && forall c | c in w[1..] :: c in w;
      PassPlain(w[1..]);
    }
  }

  /** No other pair decodes to a percent sign. */
  lemma PercentPair(a: char, b: char)
    ensures ByteOf(a, b) == '%' <==> a == '2' && b == '5'
  {
    assert '%' as int == 37;
    if IsHex(a) && IsHex(b) {
      assert ByteOf(a, b) as int == 16 * HexValue(a) + HexValue(b);
    }
  }

  /** A fragment whose only percent sign is its first character: the loop never ends exactly when
      the rest is "25" any number of times and one character more. */
  lemma {:induction false} OnePercentLoops(x: string)
    requires '%' !in x
    ensures Decoded("%" + x).None? <==> PercentsAndOne(x)
    decreases |x|
  {
    var w := "%" + x;
    assert w[0] == '%' && w[1..] == x;
    PassPlain(x);
    if |x| >= 2 {
      PercentPair(x[0], x[1]);
      assert forall c | c in x[2..] :: c in x;
      var next := [ByteOf(x[0], x[1])] + x[2..];
      if ByteOf(x[0], x[1]) == '%' {
        assert next == "%" + x[2..];
        OnePercentLoops(x[2..]);
      } else {
        PlainStartDecodes(next);
      }
    }
  }

  /** "%2" makes the loop search the same text for ever. */
  lemma {:induction false} ShortFragmentLoops(c: char, n: nat)
    ensures Decoded(['%', c]).None?
    ensures Iterate(n, Start(['%', c])).Scan?
  {
    assert ['%', c][1..] == [c];
    PassOne(c, []);
    assert Decoded(['%', c]).None?;
    var s := Iterate(n, Start(['%', c]));
    if s.Done? {
      LoopEndsIffDecoded(['%', c], s.text);
    }
  }

  // ---------------------------------------------------------------- the loop in place

  lemma {:induction false} SkipPlain(text: string, end: nat, stop: nat)
    requires stop <= end <= |text| && forall i | stop <= i < end :: text[i] != '%'
    ensures Result(Scan(text, end)) == Result(Scan(text, stop))
    decreases end - stop
  {
    if stop < end {
      StepKeepsResult(Scan(text, end));
      SkipPlain(text, end - 1, stop);
    }
  }

  /** One turn of the loop, at the percent sign found at position i. */
  lemma Turn(text: string, end: nat, i: nat)
    requires i < end <= |text| && text[i] == '%' && forall h | i < h < end :: text[h] != '%'
    ensures Step(Scan(text, i + 1)).Scan? && ValidScan(Step(Scan(text, i + 1)))
    ensures Result(Step(Scan(text, i + 1))) == Result(Scan(text, end))
  {
    SkipPlain(text, end, i + 1);
    StepKeepsResult(Scan(text, i + 1));
  }

  lemma NoPercentLeft(text: string, end: nat)
    requires end <= |text| && forall i | 0 <= i < end :: text[i] != '%'
    ensures Result(Scan(text, end)) == Some(text)
  {
    SkipPlain(text, end, 0);
    assert text[..0] == [] && text[0..] == text;
  }

  /** The decoding loop of `update`. */
  method DecodeInPlace(fragment: string) returns (pointer: string)
    requires Decoded(fragment).Some?
    ensures pointer == Decoded(fragment).value
  {
    pointer := fragment;
    var end: nat := |pointer|;  // one past `pos`; the wrapped position searches the whole text
    assert pointer[..end] == pointer && pointer[end..] == [];
    while true
      invariant end <= |pointer| && Result(Scan(pointer, end)) == Decoded(fragment)
      decreases |pointer|, if '%' in pointer then 1 else 0, end
    {
      var pos := RFindChar(pointer, '%', end);
      if pos.None? {
        NoPercentLeft(pointer, end);
        break;
      }
      var i := pos.value;
      Turn(pointer, end, i);
      if |pointer| >= 2 && i >= |pointer| - 2 {
        end := Before(i, pointer);
        continue;
      }
      pointer := Rewritten(pointer, i);
      end := Before(i, pointer);
    }
  }

  // ---------------------------------------------------------------- RFC 3986

  /** Every percent sign introduces two hexadecimal digits. */
  predicate WellEncoded(s: string) {
    if s == [] then true
    else if s[0] == '%' then |s| >= 3 && IsHex(s[1]) && IsHex(s[2]) && WellEncoded(s[3..])
    else WellEncoded(s[1..])
  }

  /** Left-to-right decoding, each triplet once. */
  function DecodeOnce(s: string): string
    requires WellEncoded(s)
  {
    if s == [] then []
    else if s[0] == '%' then [(16 * HexValue(s[1]) + HexValue(s[2])) as char] + DecodeOnce(s[3..])
    else [s[0]] + DecodeOnce(s[1..])
  }

  lemma {:induction false} PassDecodesOnce(s: string)
    requires WellEncoded(s)
    ensures Pass(s, []) == DecodeOnce(s)
  {
    if s != [] {
      if s[0] == '%' {
        PassDecodesOnce(s[3..]);
        assert s[1..][1..] == s[2..] && s[2..][1..] == s[3..];
        assert Pass(s[2..], []) == [s[2]] + Pass(s[3..], []);
        assert Pass(s[1..], []) == [s[1]] + ([s[2]] + Pass(s[3..], []));
        assert Pass(s[1..], [])[2..] == Pass(s[3..], []);
      } else {
        PassDecodesOnce(s[1..]);
      }
    }
  }

  function Digit(v: nat): (c: char)
    requires v < 16
    ensures IsHex(c) && HexValue(c) == v
  {
    if v < 10 then ('0' as int + v) as char else ('A' as int + v - 10) as char
  }

  predicate IsByte(c: char) { c as int < 256 }

  /** Percent-encoding that leaves alone the characters of `keep`, whatever they are. */
  function Encode(s: string, keep: set<char>): string
    requires forall i | 0 <= i < |s| :: IsByte(s[i])
  {
    if s == [] then []
    else
      assert IsByte(s[0]);
      (if s[0] in keep && s[0] != '%' then [s[0]]
          else ['%', Digit(s[0] as int / 16), Digit(s[0] as int % 16)]) + Encode(s[1..], keep)
  }

  lemma {:induction false} EncodeDecodes(s: string, keep: set<char>)
    requires forall i | 0 <= i < |s| :: IsByte(s[i])
    ensures WellEncoded(Encode(s, keep)) && DecodeOnce(Encode(s, keep)) == s
  {
    if s != [] {
      EncodeDecodes(s[1..], keep);
      var e := Encode(s, keep);
      assert s == [s[0]] + s[1..];
      if s[0] in keep && s[0] != '%' {
        assert e[1..] == Encode(s[1..], keep);
      } else {
        assert e[3..] == Encode(s[1..], keep);
        assert 16 * (s[0] as int / 16) + s[0] as int % 16 == s[0] as int;
      }
    }
  }

  /** A pointer fragment is decoded exactly: decoding "/" and the encoding of s gives "/" and s. */
  lemma {:induction false} FragmentRoundTrip(s: string, keep: set<char>)
    requires forall i | 0 <= i < |s| :: IsByte(s[i])
    ensures Decoded("/" + Encode(s, keep)) == Some("/" + s)
  {
    EncodeDecodes(s, keep);
    PassDecodesOnce(Encode(s, keep));
    assert ("/" + Encode(s, keep))[1..] == Encode(s, keep);
  }
}
