/** Regular expressions and the texts they match as a whole. */

module Regexes {
  datatype Regex =
    | Eps
    | Class(chars: set<char>)
    | Cat(first: Regex, second: Regex)
    | Or(left: Regex, right: Regex)
    | Star(body: Regex)

  ghost predicate Matches(r: Regex, s: string)
    decreases r, |s|
  {
    match r
    case Eps => s == ""
    case Class(chars) => |s| == 1 && s[0] in chars
    case Cat(a, b) => exists i | 0 <= i <= |s| :: Matches(a, s[..i]) && Matches(b, s[i..])
    case Or(a, b) => Matches(a, s) || Matches(b, s)
    case Star(a) => s == "" || exists i | 0 < i <= |s| :: Matches(a, s[..i]) && Matches(r, s[i..])
  }

  // ---------------------------------------------------------------- notation

  function Lit(c: char): Regex { Class({c}) }

  function Optional(r: Regex): Regex { Or(r, Eps) }

  function Plus(r: Regex): Regex { Cat(r, Star(r)) }

  /** `r{n}` */
  function Times(r: Regex, n: nat): Regex {
    if n == 0 then Eps else Cat(r, Times(r, n - 1))
  }

  /** `r{lo,hi}` */
  function Between(r: Regex, lo: nat, hi: nat): Regex
    requires lo <= hi
    decreases hi - lo
  {
    if lo == hi then Times(r, lo) else Or(Times(r, lo), Between(r, lo + 1, hi))
  }

  /** One character of each class in turn. */
  function Chain(classes: seq<set<char>>): Regex {
    if classes == [] then Eps else Cat(Class(classes[0]), Chain(classes[1..]))
  }

  // ---------------------------------------------------------------- matching piece by piece

  lemma {:induction false} CatIntro(a: Regex, b: Regex, x: string, y: string)
    requires Matches(a, x) && Matches(b, y)
    ensures Matches(Cat(a, b), x + y)
  {
    var s := x + y;
    assert s[..|x|] == x && s[|x|..] == y;
  }

  lemma CatElim(a: Regex, b: Regex, s: string) returns (x: string, y: string)
    requires Matches(Cat(a, b), s)
    ensures s == x + y && Matches(a, x) && Matches(b, y)
  {
    var i :| 0 <= i <= |s| && Matches(a, s[..i]) && Matches(b, s[i..]);
    x, y := s[..i], s[i..];
  }

  lemma {:induction false} OrIff(a: Regex, b: Regex, s: string)
    ensures Matches(Or(a, b), s) <==> Matches(a, s) || Matches(b, s)
  {
  }

  ghost predicate In(s: string, chars: set<char>) {
    forall i | 0 <= i < |s| :: s[i] in chars
  }

  lemma {:induction false} ChainIff(classes: seq<set<char>>, s: string)
    ensures Matches(Chain(classes), s) <==> |s| == |classes| && forall i | 0 <= i < |s| :: s[i] in classes[i]
  {
    if classes != [] {
      if Matches(Chain(classes), s) {
        var x, y := CatElim(Class(classes[0]), Chain(classes[1..]), s);
        ChainIff(classes[1..], y);
        forall i | 0 <= i < |s| ensures s[i] in classes[i] {
          if i > 0 { assert s[i] == y[i - 1] && classes[i] == classes[1..][i - 1]; }
        }
      }
      if |s| == |classes| && forall i | 0 <= i < |s| :: s[i] in classes[i] {
        ChainIff(classes[1..], s[1..]);
        CatIntro(Class(classes[0]), Chain(classes[1..]), s[..1], s[1..]);
        assert s[..1] + s[1..] == s;
      }
    }
  }

  lemma {:induction false} TimesClassIff(chars: set<char>, n: nat, s: string)
    ensures Matches(Times(Class(chars), n), s) <==> |s| == n && In(s, chars)
  {
    if n > 0 {
      var r := Times(Class(chars), n - 1);
      if Matches(Cat(Class(chars), r), s) {
        var x, y := CatElim(Class(chars), r, s);
        TimesClassIff(chars, n - 1, y);
        forall i | 0 <= i < |s| ensures s[i] in chars {
          if i > 0 { assert s[i] == y[i - 1]; }
        }
      }
      if |s| == n && In(s, chars) {
        TimesClassIff(chars, n - 1, s[1..]);
        CatIntro(Class(chars), r, s[..1], s[1..]);
        assert s[..1] + s[1..] == s;
      }
    }
  }

  lemma {:induction false} BetweenIntro(r: Regex, lo: nat, hi: nat, n: nat, s: string)
    requires lo <= n <= hi && Matches(Times(r, n), s)
    ensures Matches(Between(r, lo, hi), s)
    decreases hi - lo
  {
    if lo == hi {
      assert Between(r, lo, hi) == Times(r, n);
    } else {
      if n > lo { BetweenIntro(r, lo + 1, hi, n, s); }
      OrIff(Times(r, lo), Between(r, lo + 1, hi), s);
      assert Between(r, lo, hi) == Or(Times(r, lo), Between(r, lo + 1, hi));
    }
  }

  lemma {:induction false} BetweenElim(r: Regex, lo: nat, hi: nat, s: string) returns (n: nat)
    requires lo <= hi && Matches(Between(r, lo, hi), s)
    ensures lo <= n <= hi && Matches(Times(r, n), s)
    decreases hi - lo
  {
    if lo == hi {
      assert Between(r, lo, hi) == Times(r, lo);
      n := lo;
    } else {
      assert Between(r, lo, hi) == Or(Times(r, lo), Between(r, lo + 1, hi));
      OrIff(Times(r, lo), Between(r, lo + 1, hi), s);
      if Matches(Times(r, lo), s) { n := lo; } else { n := BetweenElim(r, lo + 1, hi, s); }
    }
  }

  lemma {:induction false} StarClassIff(chars: set<char>, s: string)
    ensures Matches(Star(Class(chars)), s) <==> In(s, chars)
    decreases |s|
  {
    if s != "" {
      StarClassIff(chars, s[1..]);
      if Matches(Star(Class(chars)), s) {
        var i :| 0 < i <= |s| && Matches(Class(chars), s[..i]) && Matches(Star(Class(chars)), s[i..]);
        assert i == 1 && s[..1][0] == s[0];
        forall h | 0 < h < |s| ensures s[h] in chars { assert s[h] == s[1..][h - 1]; }
      }
      if In(s, chars) {
        assert s[..1][0] == s[0] && Matches(Class(chars), s[..1]) && In(s[1..], chars);
      }
    }
  }

  lemma {:induction false} PlusClassIff(chars: set<char>, s: string)
    ensures Matches(Plus(Class(chars)), s) <==> s != "" && In(s, chars)
  {
    if Matches(Plus(Class(chars)), s) {
      var x, y := CatElim(Class(chars), Star(Class(chars)), s);
      StarClassIff(chars, y);
      forall h | 0 <= h < |s| ensures s[h] in chars { if h > 0 { assert s[h] == y[h - 1]; } }
    }
    if s != "" && In(s, chars) {
      StarClassIff(chars, s[1..]);
      CatIntro(Class(chars), Star(Class(chars)), s[..1], s[1..]);
      assert s[..1] + s[1..] == s;
    }
  }

  /** One more repetition in front. */
  lemma TimesMore(a: Regex, b: Regex, n: nat, x: string, w: string)
    requires Matches(a, x) && Matches(Cat(Times(a, n), b), w)
    ensures Matches(Cat(Times(a, n + 1), b), x + w)
  {
    var y, z := CatElim(Times(a, n), b, w);
    var r := Cat(a, Times(a, n));
    assert Times(a, n + 1) == r;
    CatIntro(a, Times(a, n), x, y);
    CatIntro(r, b, x + y, z);
    Associates(x, y, z);
  }

  lemma TimesLess(a: Regex, b: Regex, n: nat, s: string) returns (x: string, w: string)
    requires Matches(Cat(Times(a, n + 1), b), s)
    ensures s == x + w && Matches(a, x) && Matches(Cat(Times(a, n), b), w)
  {
    var r := Cat(a, Times(a, n));
    assert Times(a, n + 1) == r;
    var u, z := CatElim(r, b, s);
    var x', y := CatElim(a, Times(a, n), u);
    CatIntro(Times(a, n), b, y, z);
    Associates(x', y, z);
    x, w := x', y + z;
  }

  lemma Associates(x: string, y: string, z: string)
    ensures (x + y) + z == x + (y + z)
  {
  }
}
