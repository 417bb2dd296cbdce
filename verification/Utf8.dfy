/** Lengths of texts: what the loop over bytes counts in UTF-8. */

module Utf8 {
  import opened Evaluation

  /** The bytes of one code point (RFC 3629, section 3). */
  function Encoded(c: nat): (s: string)
    requires c < 0x110000
  {
    if c < 0x80 then [c as char]
    else if c < 0x800 then [(0xC0 + c / 0x40) as char, Continued(c)]
    else if c < 0x10000 then [(0xE0 + c / 0x1000) as char, Continued(c / 0x40), Continued(c)]
    else [(0xF0 + c / 0x40000) as char, Continued(c / 0x1000), Continued(c / 0x40), Continued(c)]
  }

  function Continued(c: nat): char { (0x80 + c % 0x40) as char }

  function Text(cs: seq<nat>): string
    requires forall i | 0 <= i < |cs| :: cs[i] < 0x110000
  {
    if cs == [] then [] else Text(cs[..|cs| - 1]) + Encoded(cs[|cs| - 1])
  }

  lemma {:induction false} CountsJoin(a: string, b: string)
    ensures CodePoints(a + b) == CodePoints(a) + CodePoints(b)
  {
    if b == [] {
      assert a + b == a;
    } else {
      assert (a + b)[..|a + b| - 1] == a + b[..|b| - 1];
      CountsJoin(a, b[..|b| - 1]);
    }
  }

  lemma CountsOne(c: nat)
    requires c < 0x110000
    ensures CodePoints(Encoded(c)) == 1
  {
    var s := Encoded(c);
    Continues(c);
    Continues(c / 0x40);
    Continues(c / 0x1000);
    assert s[..1] == [s[0]] && [s[0]][..0] == [];
    if |s| >= 2 { assert s[..2][..1] == s[..1]; }
    if |s| >= 3 { assert s[..3][..2] == s[..2]; }
    assert s[..|s|] == s && CodePoints(s[..1]) == 1;
    if |s| >= 2 { assert CodePoints(s[..2]) == 1; }
    if |s| >= 3 { assert CodePoints(s[..3]) == 1; }
  }

  lemma Continues(c: nat)
    ensures 0x80 <= Continued(c) as int % 256 < 0xC0
  {
  }

  /** Of a text in UTF-8 as many code points are counted as it has. */
  lemma {:induction false} LengthOfText(cs: seq<nat>)
    requires forall i | 0 <= i < |cs| :: cs[i] < 0x110000
    ensures CodePoints(Text(cs)) == |cs|
  {
    if cs != [] {
      LengthOfText(cs[..|cs| - 1]);
      CountsOne(cs[|cs| - 1]);
      CountsJoin(Text(cs[..|cs| - 1]), Encoded(cs[|cs| - 1]));
    }
  }
}
