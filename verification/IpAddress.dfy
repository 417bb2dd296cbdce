/** The grammars of IPv4 and IPv6 addresses among the string formats. */

module Ipv4 {
  import opened Wrappers
  import opened Regexes
  import S = Strings
  import J = Json

  const DIGITS := set c: char | '0' <= c <= '9'

  const OVER_249 := Chain([{'2'}, {'5'}, {'0', '1', '2', '3', '4', '5'}])
  const OVER_199 := Chain([{'2'}, {'0', '1', '2', '3', '4'}, DIGITS])
  const OVER_99 := Chain([{'1'}, DIGITS, DIGITS])
  const UP_TO_99 := Cat(Optional(Class(DIGITS - {'0'})), Class(DIGITS))

  /** Numbers up to 255 without leading zeros. */
  const DEC_OCTET := Or(OVER_249, Or(OVER_199, Or(OVER_99, UP_TO_99)))

  const IPV4 := Cat(Times(Cat(DEC_OCTET, Lit('.')), 3), DEC_OCTET)

  ghost predicate IsOctet(s: string) {
    exists n: nat | n < 256 :: s == J.Decimal(n)
  }

  lemma {:induction false} Digits(n: nat)
    requires n < 256
    ensures n < 10 ==> J.Decimal(n) == [('0' as int + n) as char]
    ensures 10 <= n < 100 ==> J.Decimal(n) == [('0' as int + n / 10) as char, ('0' as int + n % 10) as char]
    ensures 100 <= n ==>
      J.Decimal(n) == [('0' as int + n / 100) as char, ('0' as int + n / 10 % 10) as char,
      ('0' as int + n % 10) as char]
  {
    if n >= 10 {
      if n >= 100 {
        assert n / 10 / 10 == n / 100;
        assert J.Decimal(n / 10) == J.Decimal(n / 100) + [('0' as int + n / 10 % 10) as char];
      }
    }
  }

  lemma {:induction false} ShortOctetIff(s: string)
    ensures Matches(UP_TO_99, s) <==> (1 <= |s| <= 2 && (|s| == 2 ==> s[0] in DIGITS - {'0'}) && s[|s| - 1] in DIGITS)
  {
    var a, b := Optional(Class(DIGITS - {'0'})), Class(DIGITS);
    if Matches(Cat(a, b), s) {
      var x, y := CatElim(a, b, s);
      OrIff(Class(DIGITS - {'0'}), Eps, x);
    }
    if |s| == 1 && s[0] in DIGITS {
      OrIff(Class(DIGITS - {'0'}), Eps, "");
      CatIntro(a, b, "", s);
      assert "" + s == s;
    }
    if |s| == 2 && s[0] in DIGITS - {'0'} && s[1] in DIGITS {
      OrIff(Class(DIGITS - {'0'}), Eps, s[..1]);
      CatIntro(a, b, s[..1], s[1..]);
      assert s[..1] + s[1..] == s;
    }
  }

  predicate D(c: char) { '0' <= c <= '9' }

  predicate Shape(s: string) {
    || (|s| == 3 && s[0] == '2' && s[1] == '5' && '0' <= s[2] <= '5')
    || (|s| == 3 && s[0] == '2' && '0' <= s[1] <= '4' && D(s[2]))
    || (|s| == 3 && s[0] == '1' && D(s[1]) && D(s[2]))
    || (|s| == 2 && '1' <= s[0] <= '9' && D(s[1]))
    || (|s| == 1 && D(s[0]))
  }

  lemma {:induction false} OctetShape(s: string)
    ensures Matches(DEC_OCTET, s) <==> Shape(s)
  {
    ChainIff([{'2'}, {'5'}, {'0', '1', '2', '3', '4', '5'}], s);
    ChainIff([{'2'}, {'0', '1', '2', '3', '4'}, DIGITS], s);
    ChainIff([{'1'}, DIGITS, DIGITS], s);
    ShortOctetIff(s);
    OrIff(OVER_249, Or(OVER_199, Or(OVER_99, UP_TO_99)), s);
    OrIff(OVER_199, Or(OVER_99, UP_TO_99), s);
    OrIff(OVER_99, UP_TO_99, s);
  }

  function Value(s: string): int
    requires 1 <= |s| <= 3
  {
    var d0 := s[0] as int - '0' as int;
    if |s| == 1 then d0
    else
      var d1 := s[1] as int - '0' as int;
      if |s| == 2 then 10 * d0 + d1 else 100 * d0 + 10 * d1 + (s[2] as int - '0' as int)
  }

  lemma ValueDecimal(s: string)
    requires Shape(s)
    ensures 0 <= Value(s) < 256 && s == J.Decimal(Value(s))
  {
    ValueBound(s);
    Digits(Value(s));
    var a := s[0] as int - '0' as int;
    if |s| == 3 {
      ThreeDigits(a, s[1] as int - '0' as int, s[2] as int - '0' as int);
      assert s == [s[0], s[1], s[2]];
    } else if |s| == 2 {
      TwoDigits(a, s[1] as int - '0' as int);
      assert s == [s[0], s[1]];
    } else {
      assert s == [s[0]];
    }
  }

  lemma ValueBound(s: string)
    requires Shape(s)
    ensures 0 <= Value(s) < 256
    ensures |s| == 1 ==> Value(s) < 10
    ensures |s| == 2 ==> 10 <= Value(s) < 100
    ensures |s| == 3 ==> 100 <= Value(s)
  {
  }

  lemma TwoDigits(a: int, b: int)
    requires 0 <= a < 10 && 0 <= b < 10
    ensures (10 * a + b) / 10 == a && (10 * a + b) % 10 == b
  {
  }

  lemma ThreeDigits(a: int, b: int, c: int)
    requires 0 <= a < 10 && 0 <= b < 10 && 0 <= c < 10
    ensures var n := 100 * a + 10 * b + c; n / 100 == a && n / 10 % 10 == b && n % 10 == c
  {
  }

  lemma ShapeIff(s: string)
    ensures Shape(s) <==> IsOctet(s)
  {
    if IsOctet(s) {
      var n: nat :| n < 256 && s == J.Decimal(n);
      Digits(n);
    }
    if Shape(s) {
      ValueDecimal(s);
    }
  }

  lemma {:induction false} OctetIff(s: string)
    ensures Matches(DEC_OCTET, s) <==> IsOctet(s)
  {
    OctetShape(s);
    ShapeIff(s);
  }

  // ---------------------------------------------------------------- printing and reading

  function JoinOctets(os: seq<nat>): string
    requires os != []
  {
    if |os| == 1 then J.Decimal(os[0]) else J.Decimal(os[0]) + "." + JoinOctets(os[1..])
  }

  /** k octets with a dot after each but the last. */
  function ParseOctets(s: string, k: nat): Option<seq<nat>>
    requires k > 0
  {
    if k == 1 then if Shape(s) then Some([Value(s)]) else None
    else
      var dot := S.FindChar(s, '.', 0);
      if dot.None? || !Shape(s[..dot.value]) then None
      else match ParseOctets(s[dot.value + 1..], k - 1)
        case None => None
        case Some(os) => Some([Value(s[..dot.value])] + os)
  }

  ghost predicate Octets(os: seq<nat>) {
    forall i | 0 <= i < |os| :: os[i] < 256
  }

  lemma {:induction false} DecimalShape(n: nat)
    requires n < 256
    ensures Shape(J.Decimal(n)) && Value(J.Decimal(n)) == n && '.' !in J.Decimal(n)
  {
    Digits(n);
  }

  lemma {:induction false} FindAfter(x: string, c: char, y: string)
    requires c !in x
    ensures S.FindChar(x + [c] + y, c, 0) == Some(|x|)
  {
    var s := x + [c] + y;
    assert s[|x|] == c;
    forall i | 0 <= i < |x| ensures s[i] != c { assert s[i] == x[i]; }
  }

  lemma {:induction false} ParseStep(x: string, rest: string, k: nat)
    requires k > 1 && '.' !in x
    ensures var s := x + "." + rest;
      ParseOctets(s, k) == if !Shape(x) then None else
        match ParseOctets(rest, k - 1) case None => None case Some(os) => Some([Value(x)] + os)
  {
    var s := x + "." + rest;
    FindAfter(x, '.', rest);
    assert s == x + ['.'] + rest && s[..|x|] == x && s[|x| + 1..] == rest;
  }

  lemma {:induction false} ParseCons(x: string, rest: string, more: seq<nat>)
    requires Shape(x) && '.' !in x && |more| > 0 && ParseOctets(rest, |more|) == Some(more)
    ensures ParseOctets(x + "." + rest, |more| + 1) == Some([Value(x)] + more)
  {
    ParseStep(x, rest, |more| + 1);
  }

  lemma {:induction false} ParseJoined(os: seq<nat>)
    requires os != [] && Octets(os)
    ensures ParseOctets(JoinOctets(os), |os|) == Some(os)
  {
    DecimalShape(os[0]);
    if |os| == 1 {
      assert os == [os[0]];
    } else {
      ParseJoined(os[1..]);
      ParseCons(J.Decimal(os[0]), JoinOctets(os[1..]), os[1..]);
      FirstAndRest(os);
    }
  }

  lemma FirstAndRest(os: seq<nat>)
    requires os != []
    ensures [os[0]] + os[1..] == os
  {
  }

  lemma {:induction false} JoinParsed(s: string, k: nat)
    requires k > 0 && ParseOctets(s, k).Some?
    ensures var os := ParseOctets(s, k).value; |os| == k && Octets(os) && JoinOctets(os) == s
    decreases k
  {
    var os := ParseOctets(s, k).value;
    if k == 1 {
      ValueDecimal(s);
    } else {
      var i := S.FindChar(s, '.', 0).value;
      var x, rest := s[..i], s[i + 1..];
      assert s == x + "." + rest;
      ValueDecimal(x);
      JoinParsed(rest, k - 1);
      var more := ParseOctets(rest, k - 1).value;
      assert os == [Value(x)] + more && os[1..] == more;
    }
  }

  /** The grammar with k octets. */
  function Dotted(k: nat): Regex { Cat(Times(Cat(DEC_OCTET, Lit('.')), k), DEC_OCTET) }

  lemma {:induction false} DottedIntro(os: seq<nat>)
    requires os != [] && Octets(os)
    ensures Matches(Dotted(|os| - 1), JoinOctets(os))
  {
    var x := J.Decimal(os[0]);
    OctetIff(x);
    if |os| == 1 {
      CatIntro(Eps, DEC_OCTET, "", x);
      assert "" + x == x;
    } else {
      DottedIntro(os[1..]);
      CatIntro(DEC_OCTET, Lit('.'), x, ".");
      TimesMore(Cat(DEC_OCTET, Lit('.')), DEC_OCTET, |os| - 2, x + ".", JoinOctets(os[1..]));
    }
  }

  lemma {:induction false} DottedElim(k: nat, s: string) returns (os: seq<nat>)
    requires Matches(Dotted(k), s)
    ensures |os| == k + 1 && Octets(os) && JoinOctets(os) == s
    decreases k
  {
    if k == 0 {
      var y, z := CatElim(Eps, DEC_OCTET, s);
      OctetIff(z);
      var n: nat :| n < 256 && z == J.Decimal(n);
      assert s == z;
      os := [n];
    } else {
      var d, rest := TimesLess(Cat(DEC_OCTET, Lit('.')), DEC_OCTET, k - 1, s);
      var x, dot := CatElim(DEC_OCTET, Lit('.'), d);
      OctetIff(x);
      var n: nat :| n < 256 && x == J.Decimal(n);
      var more := DottedElim(k - 1, rest);
      os := [n] + more;
      assert os[1..] == more && dot == ".";
    }
  }

  /** The 32-bit number of an address, and its address. */
  function Number(os: seq<nat>): nat
    requires |os| == 4
  {
    ((os[0] * 256 + os[1]) * 256 + os[2]) * 256 + os[3]
  }

  function OctetsOf(n: nat): seq<nat> {
    [n / 0x100_0000, n / 0x1_0000 % 256, n / 256 % 256, n % 256]
  }

  function Print(n: nat): string { JoinOctets(OctetsOf(n)) }

  function Parse(s: string): Option<nat> {
    match ParseOctets(s, 4)
    case None => None
    case Some(os) => if |os| == 4 then Some(Number(os)) else None
  }

  lemma NumberOctets(n: nat, os: seq<nat>)
    requires |os| == 4 && Octets(os)
    ensures Number(os) < 0x1_0000_0000
    ensures n < 0x1_0000_0000 ==> (OctetsOf(n) == os <==> Number(os) == n) && Octets(OctetsOf(n))
  {
    assert os[0] < 256 && os[1] < 256 && os[2] < 256 && os[3] < 256;
    assert os == [os[0], os[1], os[2], os[3]];
    OctetsUnique(n, os[0], os[1], os[2], os[3]);
    if n < 0x1_0000_0000 {
      assert n / 0x100_0000 < 256;
    }
  }

  lemma OctetsUnique(n: nat, a: nat, b: nat, c: nat, d: nat)
    requires a < 256 && b < 256 && c < 256 && d < 256
    ensures n == ((a * 256 + b) * 256 + c) * 256 + d <==>
            n / 0x100_0000 == a && n / 0x1_0000 % 256 == b && n / 256 % 256 == c && n % 256 == d
  {
    assert n == n / 256 * 256 + n % 256;
    assert n / 256 == n / 0x1_0000 * 256 + n / 256 % 256;
    assert n / 0x1_0000 == n / 0x100_0000 * 256 + n / 0x1_0000 % 256;
  }

  lemma {:induction false} MatchesIffParses(s: string)
    ensures Matches(IPV4, s) <==> ParseOctets(s, 4).Some?
  {
    assert IPV4 == Dotted(3);
    if Matches(IPV4, s) {
      var os := DottedElim(3, s);
      ParseJoined(os);
    }
    if ParseOctets(s, 4).Some? {
      JoinParsed(s, 4);
      DottedIntro(ParseOctets(s, 4).value);
    }
  }

  lemma {:induction false} ParsePrints(s: string)
    requires ParseOctets(s, 4).Some?
    ensures Parse(s).Some? && Parse(s).value < 0x1_0000_0000 && Print(Parse(s).value) == s
  {
    JoinParsed(s, 4);
    var os := ParseOctets(s, 4).value;
    NumberOctets(Number(os), os);
  }

  /** The grammar matches exactly the printed forms of 32-bit numbers, which reading inverts. */
  lemma {:induction false} Ipv4Exactly(s: string)
    ensures Matches(IPV4, s) <==> Parse(s).Some?
    ensures Matches(IPV4, s) <==> exists n: nat | n < 0x1_0000_0000 :: s == Print(n)
    ensures Parse(s).Some? ==> Parse(s).value < 0x1_0000_0000 && Print(Parse(s).value) == s
  {
    MatchesIffParses(s);
    if ParseOctets(s, 4).Some? {
      ParsePrints(s);
    }
    if n: nat :| n < 0x1_0000_0000 && s == Print(n) {
      PrintParses(n);
    }
  }

  lemma PrintParses(n: nat)
    requires n < 0x1_0000_0000
    ensures Parse(Print(n)) == Some(n)
  {
    NumberOctets(n, [0, 0, 0, 0]);
    ParseJoined(OctetsOf(n));
    NumberOctets(n, OctetsOf(n));
  }
}

module Ipv6 {
  import opened Wrappers
  import opened Regexes
  import V4 = Ipv4
  import S = Strings

  const HEX := (set c: char | '0' <= c <= '9') + (set c: char | 'A' <= c <= 'F') + (set c: char | 'a' <= c <= 'f')
  const H16 := Between(Class(HEX), 1, 4)
  const LEFT := Cat(H16, Lit(':'))
  const COLONS := Cat(Lit(':'), Lit(':'))
  const LS32 := Or(Cat(LEFT, H16), V4.IPV4)

  /** `(?:h16Left{0,m}h16)?` */
  function Before(m: nat): Regex { Optional(Cat(Between(LEFT, 0, m), H16)) }

  // what can stand before the last 32 bits, by the number of groups behind "::"
  const NO_GAP := Times(LEFT, 6)
  const GAP_5 := Cat(COLONS, Times(LEFT, 5))
  const GAP_4 := Cat(Optional(H16), Cat(COLONS, Times(LEFT, 4)))
  const GAP_3 := Cat(Before(1), Cat(COLONS, Times(LEFT, 3)))
  const GAP_2 := Cat(Before(2), Cat(COLONS, Times(LEFT, 2)))
  const GAP_1 := Cat(Before(3), Cat(COLONS, LEFT))
  const GAP_0 := Cat(Before(4), COLONS)
  const HEAD := Or(NO_GAP, Or(GAP_5, Or(GAP_4, Or(GAP_3, Or(GAP_2, Or(GAP_1, GAP_0))))))

  const LAST_GROUP := Cat(Before(5), Cat(COLONS, H16))
  const NO_GROUP := Cat(Before(6), COLONS)

  const IPV6 := Or(Cat(HEAD, LS32), Or(LAST_GROUP, NO_GROUP))

  // ---------------------------------------------------------------- what an address looks like

  ghost predicate Group(g: string) { 1 <= |g| <= 4 && In(g, HEX) }

  /** A group is one to four digits of either alphabet. */
  lemma GroupExactly(g: string)
    ensures Group(g) <==> 1 <= |g| <= 4 && forall i | 0 <= i < |g| :: Hexadecimal(g[i])
  {
    forall i | 0 <= i < |g| ensures g[i] in HEX <==> Hexadecimal(g[i]) { HexDigit(g[i]); }
  }

  ghost predicate Hexadecimal(c: char) { exists v: nat :: S.IsHexDigit(c, v) }

  lemma HexDigit(c: char)
    ensures c in HEX <==> Hexadecimal(c)
  {
    if '0' <= c <= '9' { assert S.IsHexDigit(c, c as int - '0' as int); }
    if 'A' <= c <= 'F' { assert S.IsHexDigit(c, 10 + c as int - 'A' as int); }
    if 'a' <= c <= 'f' { assert S.IsHexDigit(c, 10 + c as int - 'a' as int); }
  }

  ghost predicate Groups(gs: seq<string>) {
    forall i | 0 <= i < |gs| :: Group(gs[i])
  }

  /** Each group followed by a colon. */
  function Trail(gs: seq<string>): string {
    if gs == [] then "" else gs[0] + ":" + Trail(gs[1..])
  }

  /** Groups with colons between them, and a dotted quad as the last of them, if any. */
  function Joined(gs: seq<string>, quad: Option<string>): string {
    if quad.Some? then Trail(gs) + quad.value
    else if gs == [] then ""
    else Trail(gs[..|gs| - 1]) + gs[|gs| - 1]
  }

  ghost predicate Quad(quad: Option<string>) {
    quad.Some? ==> V4.Parse(quad.value).Some?
  }

  /** A quad stands for two groups. */
  function Weight(gs: seq<string>, quad: Option<string>): nat {
    |gs| + (if quad.Some? then 2 else 0)
  }

  ghost predicate Full(s: string, gs: seq<string>, quad: Option<string>) {
    Groups(gs) && Quad(quad) && Weight(gs, quad) == 8 && s == Joined(gs, quad)
  }

  ghost predicate Compressed(s: string, left: seq<string>, right: seq<string>, quad: Option<string>) {
    Groups(left) && Groups(right) && Quad(quad) && |left| + Weight(right, quad) <= 7
    && s == Joined(left, None) + "::" + Joined(right, quad)
  }

  /** Eight groups, or one "::" that stands for at least one group of zeros. */
  ghost predicate IsAddress(s: string) {
    || (exists gs, quad :: Full(s, gs, quad))
    || (exists left, right, quad :: Compressed(s, left, right, quad))
  }

  // ---------------------------------------------------------------- pieces of the grammar

  lemma {:induction false} GroupIff(s: string)
    ensures Matches(H16, s) <==> Group(s)
  {
    if Matches(H16, s) {
      var n := BetweenElim(Class(HEX), 1, 4, s);
      TimesClassIff(HEX, n, s);
    }
    if Group(s) {
      TimesClassIff(HEX, |s|, s);
      BetweenIntro(Class(HEX), 1, 4, |s|, s);
    }
  }

  lemma {:induction false} LeftIntro(g: string)
    requires Group(g)
    ensures Matches(LEFT, g + ":")
  {
    GroupIff(g);
    CatIntro(H16, Lit(':'), g, ":");
  }

  lemma LeftElim(s: string) returns (g: string)
    requires Matches(LEFT, s)
    ensures Group(g) && s == g + ":"
  {
    var colon;
    g, colon := CatElim(H16, Lit(':'), s);
    GroupIff(g);
    assert colon == ":";
  }

  /** Groups with their colons, and then something else. */
  lemma {:induction false} TrailIntro(gs: seq<string>, b: Regex, rest: string)
    requires Groups(gs) && Matches(b, rest)
    ensures Matches(Cat(Times(LEFT, |gs|), b), Trail(gs) + rest)
    decreases |gs|
  {
    if gs == [] {
      CatIntro(Eps, b, "", rest);
      assert Trail(gs) + rest == "" + rest;
    } else {
      LeftIntro(gs[0]);
      TrailIntro(gs[1..], b, rest);
      TimesMore(LEFT, b, |gs| - 1, gs[0] + ":", Trail(gs[1..]) + rest);
      Associates(gs[0] + ":", Trail(gs[1..]), rest);
    }
  }

  lemma {:induction false} TrailElim(n: nat, b: Regex, s: string) returns (gs: seq<string>, rest: string)
    requires Matches(Cat(Times(LEFT, n), b), s)
    ensures |gs| == n && Groups(gs) && s == Trail(gs) + rest && Matches(b, rest)
    decreases n
  {
    if n == 0 {
      var e;
      e, rest := CatElim(Eps, b, s);
      gs := [];
    } else {
      var x, w := TimesLess(LEFT, b, n - 1, s);
      var g := LeftElim(x);
      var more;
      more, rest := TrailElim(n - 1, b, w);
      gs := [g] + more;
      assert gs[1..] == more;
      Associates(x, Trail(more), rest);
    }
  }

  /** Exactly n groups, each with its colon. */
  lemma TrailOnly(n: nat, s: string) returns (gs: seq<string>)
    requires Matches(Times(LEFT, n), s)
    ensures |gs| == n && Groups(gs) && s == Trail(gs)
  {
    CatIntro(Times(LEFT, n), Eps, s, "");
    assert s + "" == s;
    var rest;
    gs, rest := TrailElim(n, Eps, s);
    assert Trail(gs) + "" == Trail(gs);
  }

  lemma {:induction false} TrailAlone(gs: seq<string>)
    requires Groups(gs)
    ensures Matches(Times(LEFT, |gs|), Trail(gs))
  {
    TrailIntro(gs, Eps, "");
    var x, y := CatElim(Times(LEFT, |gs|), Eps, Trail(gs) + "");
    assert x == Trail(gs);
  }

  lemma {:induction false} JoinedSnoc(gs: seq<string>, g: string)
    ensures Joined(gs + [g], None) == Trail(gs) + g
  {
    assert (gs + [g])[..|gs|] == gs;
  }

  lemma LeadElim(m: nat, s: string) returns (gs: seq<string>)
    requires Matches(Cat(Between(LEFT, 0, m), H16), s)
    ensures |gs| <= m + 1 && Groups(gs) && s == Joined(gs, None)
  {
    var x, g := CatElim(Between(LEFT, 0, m), H16, s);
    var n := BetweenElim(LEFT, 0, m, x);
    var front := TrailOnly(n, x);
    GroupIff(g);
    JoinedSnoc(front, g);
    gs := front + [g];
  }

  lemma BeforeElim(m: nat, s: string) returns (gs: seq<string>)
    requires Matches(Before(m), s)
    ensures |gs| <= m + 1 && Groups(gs) && s == Joined(gs, None)
  {
    OrIff(Cat(Between(LEFT, 0, m), H16), Eps, s);
    if Matches(Cat(Between(LEFT, 0, m), H16), s) {
      gs := LeadElim(m, s);
    } else {
      gs := [];
    }
  }

  lemma BeforeIntro(m: nat, gs: seq<string>)
    requires |gs| <= m + 1 && Groups(gs)
    ensures Matches(Before(m), Joined(gs, None))
  {
    var s := Joined(gs, None);
    OrIff(Cat(Between(LEFT, 0, m), H16), Eps, s);
    if gs != [] {
      var front, g := gs[..|gs| - 1], gs[|gs| - 1];
      TrailAlone(front);
      BetweenIntro(LEFT, 0, m, |front|, Trail(front));
      GroupIff(g);
      CatIntro(Between(LEFT, 0, m), H16, Trail(front), g);
    }
  }

  lemma ColonsElim(b: Regex, s: string) returns (rest: string)
    requires Matches(Cat(COLONS, b), s)
    ensures s == "::" + rest && Matches(b, rest)
  {
    var x;
    x, rest := CatElim(COLONS, b, s);
    var c, d := CatElim(Lit(':'), Lit(':'), x);
    assert c == ":" && d == ":" && x == "::";
  }

  lemma {:induction false} ColonsIntro(b: Regex, rest: string)
    requires Matches(b, rest)
    ensures Matches(Cat(COLONS, b), "::" + rest)
  {
    CatIntro(Lit(':'), Lit(':'), ":", ":");
    assert ":" + ":" == "::";
    CatIntro(COLONS, b, "::", rest);
  }

  ghost predicate Open(x: string, left: seq<string>, right: seq<string>) {
    Groups(left) && Groups(right) && x == Joined(left, None) + "::" + Trail(right)
  }

  /** At most m + 1 groups, "::" and k groups, each of these with its colon. */
  lemma OpenElim(m: nat, k: nat, x: string) returns (left: seq<string>, right: seq<string>)
    requires Matches(Cat(Before(m), Cat(COLONS, Times(LEFT, k))), x)
    ensures |left| <= m + 1 && |right| == k && Open(x, left, right)
  {
    var p, q := CatElim(Before(m), Cat(COLONS, Times(LEFT, k)), x);
    left := BeforeElim(m, p);
    var rest := ColonsElim(Times(LEFT, k), q);
    right := TrailOnly(k, rest);
    Associates(p, "::", rest);
  }

  lemma {:induction false} OpenIntro(m: nat, x: string, left: seq<string>, right: seq<string>)
    requires |left| <= m + 1 && Open(x, left, right)
    ensures Matches(Cat(Before(m), Cat(COLONS, Times(LEFT, |right|))), x)
  {
    BeforeIntro(m, left);
    TrailAlone(right);
    ColonsIntro(Times(LEFT, |right|), Trail(right));
    CatIntro(Before(m), Cat(COLONS, Times(LEFT, |right|)), Joined(left, None), "::" + Trail(right));
    Associates(Joined(left, None), "::", Trail(right));
  }

  // ---------------------------------------------------------------- the alternatives

  lemma {:induction false} HeadIff(x: string)
    ensures Matches(HEAD, x) <==>
      || Matches(NO_GAP, x) || Matches(GAP_5, x) || Matches(GAP_4, x) || Matches(GAP_3, x)
      || Matches(GAP_2, x) || Matches(GAP_1, x) || Matches(GAP_0, x)
  {
    OrIff(NO_GAP, Or(GAP_5, Or(GAP_4, Or(GAP_3, Or(GAP_2, Or(GAP_1, GAP_0))))), x);
    OrIff(GAP_5, Or(GAP_4, Or(GAP_3, Or(GAP_2, Or(GAP_1, GAP_0)))), x);
    OrIff(GAP_4, Or(GAP_3, Or(GAP_2, Or(GAP_1, GAP_0))), x);
    OrIff(GAP_3, Or(GAP_2, Or(GAP_1, GAP_0)), x);
    OrIff(GAP_2, Or(GAP_1, GAP_0), x);
    OrIff(GAP_1, GAP_0, x);
  }

  lemma Gap5Elim(x: string) returns (right: seq<string>)
    requires Matches(GAP_5, x)
    ensures |right| == 5 && Open(x, [], right)
  {
    var rest := ColonsElim(Times(LEFT, 5), x);
    right := TrailOnly(5, rest);
    assert x == "" + "::" + rest;
  }

  lemma {:induction false} Gap5Intro(x: string, right: seq<string>)
    requires |right| == 5 && Open(x, [], right)
    ensures Matches(GAP_5, x)
  {
    TrailAlone(right);
    ColonsIntro(Times(LEFT, 5), Trail(right));
    assert Joined([], None) == "" && "" + "::" + Trail(right) == "::" + Trail(right);
    assert x == "::" + Trail(right);
  }

  lemma {:induction false} OneGroup(s: string)
    ensures Matches(Optional(H16), s) <==> s == "" || Group(s)
  {
    GroupIff(s);
    OrIff(H16, Eps, s);
  }

  lemma Gap4Elim(x: string) returns (left: seq<string>, right: seq<string>)
    requires Matches(GAP_4, x)
    ensures |left| <= 1 && |right| == 4 && Open(x, left, right)
  {
    var p, q := CatElim(Optional(H16), Cat(COLONS, Times(LEFT, 4)), x);
    OneGroup(p);
    var rest := ColonsElim(Times(LEFT, 4), q);
    right := TrailOnly(4, rest);
    left := if p == "" then [] else [p];
    JoinedSnoc([], p);
    assert [] + [p] == [p] && "" + p == p;
    Associates(p, "::", rest);
  }

  lemma {:induction false} Gap4Intro(x: string, left: seq<string>, right: seq<string>)
    requires |left| <= 1 && |right| == 4 && Open(x, left, right)
    ensures Matches(GAP_4, x)
  {
    var p := Joined(left, None);
    if left != [] {
      JoinedSnoc([], left[0]);
      assert [] + [left[0]] == left && "" + left[0] == left[0];
    }
    OneGroup(p);
    TrailAlone(right);
    ColonsIntro(Times(LEFT, 4), Trail(right));
    CatIntro(Optional(H16), Cat(COLONS, Times(LEFT, 4)), p, "::" + Trail(right));
    Associates(p, "::", Trail(right));
  }

  lemma TrailOne(g: string)
    ensures Trail([g]) == g + ":"
  {
    assert [g][1..] == [] && Trail([]) == "" && g + ":" + "" == g + ":";
  }

  lemma Gap1Elim(x: string) returns (left: seq<string>, right: seq<string>)
    requires Matches(GAP_1, x)
    ensures |left| <= 4 && |right| == 1 && Open(x, left, right)
  {
    var p, q := CatElim(Before(3), Cat(COLONS, LEFT), x);
    left := BeforeElim(3, p);
    var rest := ColonsElim(LEFT, q);
    var g := LeftElim(rest);
    right := [g];
    TrailOne(g);
    Associates(p, "::", rest);
  }

  lemma {:induction false} Gap1Intro(x: string, left: seq<string>, right: seq<string>)
    requires |left| <= 4 && |right| == 1 && Open(x, left, right)
    ensures Matches(GAP_1, x)
  {
    BeforeIntro(3, left);
    TrailOne(right[0]);
    assert right == [right[0]];
    LeftIntro(right[0]);
    ColonsIntro(LEFT, Trail(right));
    CatIntro(Before(3), Cat(COLONS, LEFT), Joined(left, None), "::" + Trail(right));
    Associates(Joined(left, None), "::", Trail(right));
  }

  /** Groups and then "::". */
  lemma NoneElim(m: nat, x: string) returns (left: seq<string>)
    requires Matches(Cat(Before(m), COLONS), x)
    ensures |left| <= m + 1 && Groups(left) && x == Joined(left, None) + "::"
  {
    var p, q := CatElim(Before(m), COLONS, x);
    left := BeforeElim(m, p);
    var c, d := CatElim(Lit(':'), Lit(':'), q);
    assert c == ":" && d == ":" && q == "::";
  }

  lemma {:induction false} NoneIntro(m: nat, x: string, left: seq<string>)
    requires |left| <= m + 1 && Groups(left) && x == Joined(left, None) + "::"
    ensures Matches(Cat(Before(m), COLONS), x)
  {
    BeforeIntro(m, left);
    CatIntro(Lit(':'), Lit(':'), ":", ":");
    assert ":" + ":" == "::";
    CatIntro(Before(m), COLONS, Joined(left, None), "::");
  }

  lemma HeadElim(x: string) returns (gap: bool, left: seq<string>, right: seq<string>)
    requires Matches(HEAD, x)
    ensures gap ==> |left| + |right| <= 5 && Open(x, left, right)
    ensures !gap ==> |right| == 6 && Groups(right) && x == Trail(right)
  {
    HeadIff(x);
    gap, left := true, [];
    if Matches(NO_GAP, x) {
      gap := false;
      right := TrailOnly(6, x);
    } else if Matches(GAP_5, x) {
      right := Gap5Elim(x);
    } else if Matches(GAP_4, x) {
      left, right := Gap4Elim(x);
    } else if Matches(GAP_3, x) {
      left, right := OpenElim(1, 3, x);
    } else if Matches(GAP_2, x) {
      left, right := OpenElim(2, 2, x);
    } else if Matches(GAP_1, x) {
      left, right := Gap1Elim(x);
    } else {
      left := NoneElim(4, x);
      right := [];
      assert x == Joined(left, None) + "::" + Trail([]);
    }
  }

  lemma {:induction false} HeadIntro(x: string, left: seq<string>, right: seq<string>)
    requires |left| + |right| <= 5 && Open(x, left, right)
    ensures Matches(HEAD, x)
  {
    HeadIff(x);
    if |right| == 5 { Gap5Intro(x, right); }
    else if |right| == 4 { Gap4Intro(x, left, right); }
    else if |right| == 3 { OpenIntro(1, x, left, right); }
    else if |right| == 2 { OpenIntro(2, x, left, right); }
    else if |right| == 1 { Gap1Intro(x, left, right); }
    else { NoneIntro(4, x, left); }
  }

  /** The last 32 bits: two groups or a quad. */
  lemma LastElim(y: string) returns (gs: seq<string>, quad: Option<string>)
    requires Matches(LS32, y)
    ensures Groups(gs) && Quad(quad) && Weight(gs, quad) == 2 && y == Joined(gs, quad)
  {
    OrIff(Cat(LEFT, H16), V4.IPV4, y);
    if Matches(Cat(LEFT, H16), y) {
      var l, h := CatElim(LEFT, H16, y);
      var g := LeftElim(l);
      GroupIff(h);
      TrailOne(g);
      JoinedSnoc([g], h);
      gs, quad := [g] + [h], None;
    } else {
      V4.Ipv4Exactly(y);
      gs, quad := [], Some(y);
      assert "" + y == y;
    }
  }

  lemma LastIntro(gs: seq<string>, quad: Option<string>)
    requires Groups(gs) && Quad(quad) && Weight(gs, quad) == 2
    ensures Matches(LS32, Joined(gs, quad))
  {
    var y := Joined(gs, quad);
    OrIff(Cat(LEFT, H16), V4.IPV4, y);
    if quad.Some? {
      V4.Ipv4Exactly(quad.value);
      assert "" + quad.value == quad.value;
    } else {
      LeftIntro(gs[0]);
      GroupIff(gs[1]);
      TrailOne(gs[0]);
      assert gs[..1] == [gs[0]];
      CatIntro(LEFT, H16, gs[0] + ":", gs[1]);
    }
  }

  lemma {:induction false} TrailAppend(a: seq<string>, b: seq<string>)
    ensures Trail(a + b) == Trail(a) + Trail(b)
  {
    if a == [] {
      assert [] + b == b && "" + Trail(b) == Trail(b);
    } else {
      assert (a + b)[1..] == a[1..] + b;
      TrailAppend(a[1..], b);
      Associates(a[0] + ":", Trail(a[1..]), Trail(b));
    }
  }

  lemma {:induction false} JoinedAppend(a: seq<string>, gs: seq<string>, quad: Option<string>)
    requires quad.Some? || gs != []
    ensures Joined(a + gs, quad) == Trail(a) + Joined(gs, quad)
  {
    if quad.Some? {
      TrailAppend(a, gs);
      Associates(Trail(a), Trail(gs), quad.value);
    } else {
      var front := gs[..|gs| - 1];
      assert (a + gs)[..|a + gs| - 1] == a + front;
      TrailAppend(a, front);
      Associates(Trail(a), Trail(front), gs[|gs| - 1]);
    }
  }

  // ---------------------------------------------------------------- the theorem

  lemma {:induction false} WithTailIsAddress(s: string)
    requires Matches(Cat(HEAD, LS32), s)
    ensures IsAddress(s)
  {
    var x, y := CatElim(HEAD, LS32, s);
    var gap, left, right := HeadElim(x);
    var gs, quad := LastElim(y);
    JoinedAppend(right, gs, quad);
    if gap {
      Associates(Joined(left, None) + "::", Trail(right), y);
      assert Compressed(s, left, right + gs, quad);
    } else {
      assert Full(s, right + gs, quad);
    }
  }

  lemma LastGroupElim(s: string) returns (left: seq<string>, g: string)
    requires Matches(LAST_GROUP, s)
    ensures |left| <= 6 && Groups(left) && Group(g) && s == Joined(left, None) + "::" + g
  {
    var p, q := CatElim(Before(5), Cat(COLONS, H16), s);
    left := BeforeElim(5, p);
    g := ColonsElim(H16, q);
    GroupIff(g);
    Associates(p, "::", g);
  }

  lemma JoinedOne(g: string)
    ensures Joined([g], None) == g
  {
    assert [g][..0] == [] && "" + g == g;
  }

  lemma {:induction false} LastGroupIsAddress(s: string)
    requires Matches(LAST_GROUP, s)
    ensures IsAddress(s)
  {
    var left, g := LastGroupElim(s);
    JoinedOne(g);
    assert Compressed(s, left, [g], None);
  }

  lemma {:induction false} NoGroupIsAddress(s: string)
    requires Matches(NO_GROUP, s)
    ensures IsAddress(s)
  {
    var left := NoneElim(6, s);
    assert s == Joined(left, None) + "::" + "";
    assert Compressed(s, left, [], None);
  }

  lemma {:induction false} FullMatches(s: string, gs: seq<string>, quad: Option<string>)
    requires Full(s, gs, quad)
    ensures Matches(Cat(HEAD, LS32), s)
  {
    var x := Trail(gs[..6]);
    TrailAlone(gs[..6]);
    HeadIff(x);
    LastIntro(gs[6..], quad);
    JoinedAppend(gs[..6], gs[6..], quad);
    assert gs[..6] + gs[6..] == gs;
    CatIntro(HEAD, LS32, x, Joined(gs[6..], quad));
  }

  lemma {:induction false} LongTailMatches(s: string, left: seq<string>, right: seq<string>, quad: Option<string>)
    requires Compressed(s, left, right, quad) && Weight(right, quad) >= 2
    ensures Matches(Cat(HEAD, LS32), s)
  {
    var k := Weight(right, quad) - 2;
    var x := Joined(left, None) + "::" + Trail(right[..k]);
    assert Open(x, left, right[..k]);
    HeadIntro(x, left, right[..k]);
    LastIntro(right[k..], quad);
    JoinedAppend(right[..k], right[k..], quad);
    assert right[..k] + right[k..] == right;
    Associates(Joined(left, None) + "::", Trail(right[..k]), Joined(right[k..], quad));
    CatIntro(HEAD, LS32, x, Joined(right[k..], quad));
  }

  lemma {:induction false} OneTailMatches(s: string, left: seq<string>, right: seq<string>)
    requires Compressed(s, left, right, None) && |right| == 1
    ensures Matches(LAST_GROUP, s)
  {
    var g := right[0];
    JoinedOne(g);
    assert right == [g];
    BeforeIntro(5, left);
    GroupIff(g);
    ColonsIntro(H16, g);
    CatIntro(Before(5), Cat(COLONS, H16), Joined(left, None), "::" + g);
    Associates(Joined(left, None), "::", g);
  }

  lemma {:induction false} NoTailMatches(s: string, left: seq<string>)
    requires Compressed(s, left, [], None)
    ensures Matches(NO_GROUP, s)
  {
    assert s == Joined(left, None) + "::";
    NoneIntro(6, s, left);
  }

  /** The nine alternatives together match exactly the addresses of eight groups and those
      with one "::" among at most seven. */
  lemma {:induction false} Ipv6Exactly(s: string)
    ensures Matches(IPV6, s) <==> IsAddress(s)
  {
    OrIff(Cat(HEAD, LS32), Or(LAST_GROUP, NO_GROUP), s);
    OrIff(LAST_GROUP, NO_GROUP, s);
    if Matches(Cat(HEAD, LS32), s) { WithTailIsAddress(s); }
    else if Matches(LAST_GROUP, s) { LastGroupIsAddress(s); }
    else if Matches(NO_GROUP, s) { NoGroupIsAddress(s); }
    if gs, quad :| Full(s, gs, quad) { FullMatches(s, gs, quad); }
    if left, right, quad :| Compressed(s, left, right, quad) {
      if Weight(right, quad) >= 2 { LongTailMatches(s, left, right, quad); }
      else if |right| == 1 { OneTailMatches(s, left, right); }
      else {
        assert right == [];
        NoTailMatches(s, left);
      }
    }
  }
}
