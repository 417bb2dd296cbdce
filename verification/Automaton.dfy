/** The table-driven recogniser of mail addresses: a driver over packed transition tables. */

module Automaton {
  /** The tables of a generated automaton. A state owns a run of keys, its single keys before
      its ranges, and as many transitions, in the same order, with a default one at the end. */
  datatype Tables = Tables(
    actions: seq<int>,
    keyOffsets: seq<nat>, transKeys: seq<int>, singleLengths: seq<nat>, rangeLengths: seq<nat>,
    indexOffsets: seq<nat>, condTargs: seq<nat>, condActions: seq<nat>, eofTrans: seq<nat>,
    start: nat, firstFinal: nat)

  // ---------------------------------------------------------------- well-formed tables

  ghost predicate WellFormed(t: Tables) {
    && |t.singleLengths| == |t.rangeLengths| == |t.indexOffsets| == |t.eofTrans| == |t.keyOffsets|
    && |t.condActions| == |t.condTargs|
    && 0 < t.start < |t.keyOffsets| && t.start < t.firstFinal
    && (forall i | 0 <= i < |t.condTargs| :: t.condTargs[i] < |t.keyOffsets| && ActionOk(t, t.condActions[i]))
    && (forall s | 0 <= s < |t.keyOffsets| :: StateOk(t, s))
    && (forall s | 0 < s < |t.keyOffsets| :: EofOk(t, s))
  }

  /** A list of actions: its length, then the actions. */
  ghost predicate ActionOk(t: Tables, a: nat) {
    a != 0 ==> a < |t.actions| && 0 <= t.actions[a] && a + t.actions[a] < |t.actions|
  }

  ghost predicate StateOk(t: Tables, s: nat)
    requires |t.singleLengths| == |t.rangeLengths| == |t.indexOffsets| == |t.keyOffsets|
    requires |t.condActions| == |t.condTargs|
    requires forall i | 0 <= i < |t.condActions| :: ActionOk(t, t.condActions[i])
    requires s < |t.keyOffsets|
  {
    var k, n, m, x := t.keyOffsets[s], t.singleLengths[s], t.rangeLengths[s], t.indexOffsets[s];
    && k + n + 2 * m <= |t.transKeys| && x + n + m < |t.condTargs|
    && Singles(t.transKeys[k..k + n])
    && Ranges(t.transKeys[k + n..k + n + 2 * m])
    && forall i | x <= i <= x + n + m :: StepOk(t, i)
  }

  /** Single keys ascend. */
  ghost predicate Singles(keys: seq<int>) {
    forall i, j | 0 <= i < j < |keys| :: keys[i] < keys[j]
  }

  /** Ranges are pairs of bounds, disjoint and ascending. */
  ghost predicate Ranges(keys: seq<int>) {
    && |keys| % 2 == 0
    && (forall i | 0 <= i < |keys| / 2 :: Low(keys, i) <= High(keys, i))
    && (forall i, j | 0 <= i < j < |keys| / 2 :: High(keys, i) < Low(keys, j))
  }

  function Low(keys: seq<int>, i: nat): int
    requires i < |keys| / 2
  {
    keys[2 * i]
  }

  function High(keys: seq<int>, i: nat): int
    requires i < |keys| / 2
  {
    keys[2 * i + 1]
  }

  /** Entering a final state sets the flag; the error state clears it. */
  ghost predicate StepOk(t: Tables, i: nat)
    requires i < |t.condTargs| == |t.condActions| && ActionOk(t, t.condActions[i])
  {
    && (t.condTargs[i] >= t.firstFinal ==> After(t, i, true) && After(t, i, false))
    && (t.condTargs[i] == 0 ==> !After(t, i, true) && !After(t, i, false))
  }

  /** The end of input clears the flag in a state that is not final, and keeps it in others. */
  ghost predicate EofOk(t: Tables, s: nat)
    requires s < |t.eofTrans| && |t.condTargs| == |t.condActions|
    requires forall i | 0 <= i < |t.condActions| :: ActionOk(t, t.condActions[i])
  {
    && 0 < t.eofTrans[s] <= |t.condTargs|
    && if s >= t.firstFinal then After(t, t.eofTrans[s] - 1, true)
       else !After(t, t.eofTrans[s] - 1, true) && !After(t, t.eofTrans[s] - 1, false)
  }

  // ---------------------------------------------------------------- meaning of the tables

  function Act(action: int, flag: bool): bool {
    if action == 0 then true else if action == 1 then false else flag
  }

  function Acted(actions: seq<int>, flag: bool): bool
    decreases |actions|
  {
    if actions == [] then flag else Acted(actions[1..], Act(actions[0], flag))
  }

  /** The last action that is 0 or 1 decides: 0 sets the flag and 1 clears it. */
  lemma {:induction false} LastDecides(actions: seq<int>, flag: bool, h: nat)
    requires h < |actions| && (actions[h] == 0 || actions[h] == 1)
    requires forall i | h < i < |actions| :: actions[i] != 0 && actions[i] != 1
    ensures Acted(actions, flag) == (actions[h] == 0)
    decreases |actions|
  {
    if h > 0 {
      LastDecides(actions[1..], Act(actions[0], flag), h - 1);
    } else {
      NoneDecides(actions[1..], Act(actions[0], flag));
    }
  }

  lemma {:induction false} NoneDecides(actions: seq<int>, flag: bool)
    requires forall i | 0 <= i < |actions| :: actions[i] != 0 && actions[i] != 1
    ensures Acted(actions, flag) == flag
    decreases |actions|
  {
    if actions != [] { NoneDecides(actions[1..], Act(actions[0], flag)); }
  }

  /** The flag after the actions of a transition. */
  function After(t: Tables, i: nat, flag: bool): bool
    requires i < |t.condActions| && ActionOk(t, t.condActions[i])
  {
    var a := t.condActions[i];
    if a == 0 then flag else Acted(t.actions[a + 1..a + 1 + t.actions[a]], flag)
  }

  /** Position of the first single key equal to the character, or the number of keys. */
  function ScanSingles(keys: seq<int>, c: int): (i: nat)
    ensures i <= |keys|
  {
    if keys == [] || keys[0] == c then 0 else 1 + ScanSingles(keys[1..], c)
  }

  /** Position of the first range that holds the character, or the number of ranges. */
  function ScanRanges(keys: seq<int>, c: int): (i: nat)
    requires |keys| % 2 == 0
    ensures i <= |keys| / 2
    decreases |keys|
  {
    if keys == [] || keys[0] <= c <= keys[1] then 0 else 1 + ScanRanges(keys[2..], c)
  }

  /** The transition a linear scan picks: a single key, else a range, else the default. */
  function Picked(t: Tables, s: nat, c: int): (i: nat)
    requires WellFormed(t) && s < |t.keyOffsets|
    ensures i < |t.condTargs|
  {
    assert StateOk(t, s);
    var k, n, m, x := t.keyOffsets[s], t.singleLengths[s], t.rangeLengths[s], t.indexOffsets[s];
    var i := ScanSingles(t.transKeys[k..k + n], c);
    if i < n then x + i else x + n + ScanRanges(t.transKeys[k + n..k + n + 2 * m], c)
  }

  /** The state reached on an input; the error state is never left. */
  function Reached(t: Tables, s: nat, input: seq<int>): nat
    requires WellFormed(t) && s < |t.keyOffsets|
    decreases |input|
  {
    if s == 0 || input == [] then s else Reached(t, t.condTargs[Picked(t, s, input[0])], input[1..])
  }

  ghost predicate Accepts(t: Tables, input: seq<int>)
    requires WellFormed(t)
  {
    Reached(t, t.start, input) >= t.firstFinal
  }

  // ---------------------------------------------------------------- what the scans find

  lemma {:induction false} ScanSinglesAt(keys: seq<int>, c: int, i: nat)
    requires Singles(keys) && i < |keys| && keys[i] == c
    ensures ScanSingles(keys, c) == i
  {
    if i > 0 {
      assert keys[0] < keys[i];
      ScanSinglesAt(keys[1..], c, i - 1);
    }
  }

  lemma {:induction false} ScanSinglesNone(keys: seq<int>, c: int)
    requires c !in keys
    ensures ScanSingles(keys, c) == |keys|
  {
    if keys != [] {
      assert keys[0] in keys && forall k | k in keys[1..] :: k in keys;
      ScanSinglesNone(keys[1..], c);
    }
  }

  lemma RangesTail(keys: seq<int>)
    requires Ranges(keys) && keys != []
    ensures Ranges(keys[2..])
    ensures forall i | 0 <= i < |keys[2..]| / 2 ::
      Low(keys[2..], i) == Low(keys, i + 1) && High(keys[2..], i) == High(keys, i + 1)
  {
    var rest := keys[2..];
    forall i | 0 <= i < |rest| / 2 ensures Low(rest, i) == Low(keys, i + 1) && High(rest, i) == High(keys, i + 1) {}
  }

  lemma {:induction false} ScanRangesAt(keys: seq<int>, c: int, i: nat)
    requires Ranges(keys) && i < |keys| / 2 && Low(keys, i) <= c <= High(keys, i)
    ensures ScanRanges(keys, c) == i
    decreases i
  {
    assert Low(keys, 0) == keys[0] && High(keys, 0) == keys[1];
    if i > 0 {
      assert High(keys, 0) < Low(keys, i);
      RangesTail(keys);
      ScanRangesAt(keys[2..], c, i - 1);
    }
  }

  lemma {:induction false} ScanRangesNone(keys: seq<int>, c: int)
    requires Ranges(keys) && forall i | 0 <= i < |keys| / 2 :: !(Low(keys, i) <= c <= High(keys, i))
    ensures ScanRanges(keys, c) == |keys| / 2
    decreases |keys|
  {
    if keys != [] {
      assert !(Low(keys, 0) <= c <= High(keys, 0));
      RangesTail(keys);
      ScanRangesNone(keys[2..], c);
    }
  }

  /** Key number d is the one for a character: its single key, else the range around it, else
      the position after all keys. */
  ghost predicate Fits(singles: seq<int>, ranges: seq<int>, c: int, d: nat) {
    if d < |singles| then singles[d] == c
    else
      var h := d - |singles|;
      c !in singles && if h < |ranges| / 2 then Low(ranges, h) <= c <= High(ranges, h)
        else h == |ranges| / 2 && InNone(ranges, c)
  }

  ghost predicate InNone(ranges: seq<int>, c: int) {
    forall h | 0 <= h < |ranges| / 2 :: !(Low(ranges, h) <= c <= High(ranges, h))
  }

  lemma {:induction false} FitsIff(singles: seq<int>, ranges: seq<int>, c: int, d: nat)
    requires Singles(singles) && Ranges(ranges)
    ensures Fits(singles, ranges, c, d) <==>
      d == if ScanSingles(singles, c) < |singles| then ScanSingles(singles, c) else |singles| + ScanRanges(ranges, c)
  {
    if c in singles {
      var h :| 0 <= h < |singles| && singles[h] == c;
      ScanSinglesAt(singles, c, h);
      if d < |singles| && singles[d] == c { ScanSinglesAt(singles, c, d); }
    } else {
      ScanSinglesNone(singles, c);
      if h :| 0 <= h < |ranges| / 2 && Low(ranges, h) <= c <= High(ranges, h) {
        ScanRangesAt(ranges, c, h);
        if Fits(singles, ranges, c, d) && d - |singles| < |ranges| / 2 { ScanRangesAt(ranges, c, d - |singles|); }
      } else {
        assert InNone(ranges, c);
        ScanRangesNone(ranges, c);
      }
    }
  }

  /** Exactly one transition of a state fits a character, and it is the one a linear scan picks. */
  lemma PickedFits(t: Tables, s: nat, c: int, d: nat)
    requires WellFormed(t) && s < |t.keyOffsets|
    ensures var k, n, m := t.keyOffsets[s], t.singleLengths[s], t.rangeLengths[s];
      && StateOk(t, s)
      && (Fits(t.transKeys[k..k + n], t.transKeys[k + n..k + n + 2 * m], c, d) <==>
        t.indexOffsets[s] + d == Picked(t, s, c))
  {
    assert StateOk(t, s);
    var k, n, m := t.keyOffsets[s], t.singleLengths[s], t.rangeLengths[s];
    FitsIff(t.transKeys[k..k + n], t.transKeys[k + n..k + n + 2 * m], c, d);
  }

  // ---------------------------------------------------------------- the driver

  /** The first binary search: the offset of the character among a state's single keys, or
      their number. */
  method SearchSingles(transKeys: seq<int>, keys: nat, klen: nat, c: int) returns (offset: nat)
    requires keys + klen <= |transKeys| && Singles(transKeys[keys..keys + klen])
    ensures offset == ScanSingles(transKeys[keys..keys + klen], c) <= klen
  {
    ghost var mine := transKeys[keys..keys + klen];
    if klen > 0 {
      var lower: int, upper: int := keys, keys + klen - 1;
      while true
        invariant keys <= lower <= upper + 1 <= keys + klen
        invariant forall i | 0 <= i < lower - keys :: mine[i] < c
        invariant forall i | upper - keys < i < klen :: c < mine[i]
        decreases upper - lower + 1
      {
        if upper < lower { break; }
        var mid := lower + (upper - lower) / 2;
        assert mine[mid - keys] == transKeys[mid];
        if c < transKeys[mid] {
          upper := mid - 1;
        } else if c > transKeys[mid] {
          lower := mid + 1;
        } else {
          ScanSinglesAt(mine, c, mid - keys);
          return mid - keys;
        }
      }
    }
    ScanSinglesNone(mine, c);
    return klen;
  }

  /** The second binary search, over pairs: it never leaves the lower bounds. */
  method SearchRanges(transKeys: seq<int>, keys: nat, klen: nat, c: int) returns (offset: nat)
    requires keys + 2 * klen <= |transKeys| && Ranges(transKeys[keys..keys + 2 * klen])
    ensures offset == ScanRanges(transKeys[keys..keys + 2 * klen], c) <= klen
  {
    ghost var mine := transKeys[keys..keys + 2 * klen];
    if klen > 0 {
      var lower: int, upper: int := keys, keys + 2 * klen - 2;
      ghost var l: int, u: int := 0, klen - 1;  // the same positions, in pairs
      while true
        invariant lower == keys + 2 * l && upper == keys + 2 * u && 0 <= l <= u + 1 <= klen
        invariant forall i | 0 <= i < l :: High(mine, i) < c
        invariant forall i | u < i < klen :: c < Low(mine, i)
        decreases u - l + 1
      {
        if upper < lower { break; }
        var mid := lower + ((upper - lower) / 2 - (upper - lower) / 2 % 2);
        ghost var m := (mid - keys) / 2;
        Middle(l, u);
        assert Low(mine, m) == transKeys[mid] && High(mine, m) == transKeys[mid + 1];
        if c < transKeys[mid] {
          assert forall i | m < i < klen :: High(mine, m) < Low(mine, i);
          upper, u := mid - 2, m - 1;
        } else if c > transKeys[mid + 1] {
          assert forall i | 0 <= i < m :: High(mine, i) < Low(mine, m);
          lower, l := mid + 2, m + 1;
        } else {
          ScanRangesAt(mine, c, m);
          return (mid - keys) / 2;
        }
      }
    }
    ScanRangesNone(mine, c);
    return klen;
  }

  /** Half the distance, rounded down to even, leads to a lower bound between the two. */
  lemma Middle(l: int, u: int)
    requires l <= u
    ensures var half := (2 * u - 2 * l) / 2 - (2 * u - 2 * l) / 2 % 2;
      half % 2 == 0 && 0 <= half <= 2 * (u - l)
  {
  }

  /** The transition of a state on a character. */
  method FindTransition(t: Tables, cs: nat, c: int) returns (trans: nat)
    requires WellFormed(t) && cs < |t.keyOffsets|
    ensures trans == Picked(t, cs, c)
  {
    assert StateOk(t, cs);
    var keys := t.keyOffsets[cs];
    trans := t.indexOffsets[cs];
    var klen := t.singleLengths[cs];
    var offset := SearchSingles(t.transKeys, keys, klen, c);
    trans := trans + offset;
    if offset == klen {
      keys := keys + klen;
      offset := SearchRanges(t.transKeys, keys, t.rangeLengths[cs], c);
      trans := trans + offset;
    }
  }

  lemma PickedIsFine(t: Tables, s: nat, c: int)
    requires WellFormed(t) && s < |t.keyOffsets|
    ensures var i := Picked(t, s, c); ActionOk(t, t.condActions[i]) && StepOk(t, i) && t.condTargs[i] < |t.keyOffsets|
  {
    assert StateOk(t, s);
  }

  /** Executes the actions of a transition. */
  method RunActions(t: Tables, a: nat, flag: bool) returns (result: bool)
    requires a != 0 && ActionOk(t, a)
    ensures result == Acted(t.actions[a + 1..a + 1 + t.actions[a]], flag)
  {
    var acts, nacts := a + 1, t.actions[a];
    ghost var end := a + 1 + nacts;
    assert end <= |t.actions|;
    result := flag;
    while nacts > 0
      invariant 0 <= nacts && acts + nacts == end
      invariant Acted(t.actions[acts..end], result) == Acted(t.actions[a + 1..end], flag)
      decreases nacts
    {
      assert t.actions[acts..end][0] == t.actions[acts] && t.actions[acts..end][1..] == t.actions[acts + 1..end];
      match t.actions[acts] {
        case 0 => result := true;
        case 1 => result := false;
        case _ =>
      }
      nacts := nacts - 1;
      acts := acts + 1;
    }
  }

  /** `is_address`: the flag it returns says whether the run ends in a final state. */
  method IsAddress(t: Tables, input: seq<int>) returns (result: bool)
    requires WellFormed(t)
    ensures result <==> Accepts(t, input)
  {
    result := false;
    var cs := t.start;
    var trans: nat := 0;
    var p := 0;
    while true
      invariant 0 <= p <= |input| && 0 < cs < |t.keyOffsets|
      invariant Reached(t, t.start, input) == Reached(t, cs, input[p..])
      invariant cs >= t.firstFinal ==> result
      decreases |input| - p
    {
      if p == |input| {
        assert EofOk(t, cs);
        if t.eofTrans[cs] > 0 {
          trans := t.eofTrans[cs] - 1;
        }
      } else {
        trans := FindTransition(t, cs, input[p]);
        PickedIsFine(t, cs, input[p]);
      }
      assert ActionOk(t, t.condActions[trans]);
      ghost var flag := result;
      if t.condActions[trans] != 0 {
        result := RunActions(t, t.condActions[trans], result);
      }
      assert result == After(t, trans, flag);
      if p == |input| { break; }
      cs := t.condTargs[trans];
      if cs == 0 { break; }
      assert input[p..][0] == input[p] && input[p..][1..] == input[p + 1..];
      p := p + 1;
    }
  }

  // ---------------------------------------------------------------- an automaton

  /** Tables, packed as the generator packs them, that accept a single letter. */
  function OneLetter(c: int): Tables {
    Tables([0, 1, 0, 1, 1, 0],
           [0, 0, 1], [c], [0, 1, 0], [0, 0, 0], [0, 1, 3], [0, 2, 0, 0, 1, 2], [3, 1, 3, 3, 3, 0], [0, 5, 6], 1, 2)
  }

  lemma LetterActions(c: int, i: nat, flag: bool)
    requires i < 6
    ensures ActionOk(OneLetter(c), OneLetter(c).condActions[i])
    ensures After(OneLetter(c), i, flag) == if i == 1 then true else if i == 5 then flag else false
  {
    var t := OneLetter(c);
    assert t.actions[2..3] == [0] && t.actions[4..5] == [1];
    LastDecides([0], flag, 0);
    LastDecides([1], flag, 0);
  }

  lemma LetterStates(c: int, s: nat)
    requires s < 3 && forall i | 0 <= i < 4 :: ActionOk(OneLetter(c), OneLetter(c).condActions[i])
    requires forall i | 0 <= i < |OneLetter(c).condActions| :: ActionOk(OneLetter(c), OneLetter(c).condActions[i])
    requires forall i | 0 <= i < 4 :: StepOk(OneLetter(c), i)
    ensures StateOk(OneLetter(c), s)
  {
    assert s == 0 || s == 1 || s == 2;
  }

  lemma LetterWellFormed(c: int)
    ensures WellFormed(OneLetter(c))
  {
    var t := OneLetter(c);
    forall i | 0 <= i < 6 ensures ActionOk(t, t.condActions[i]) { LetterActions(c, i, true); }
    forall i | 0 <= i < 4 ensures StepOk(t, i) {
      LetterActions(c, i, true);
      LetterActions(c, i, false);
    }
    forall s | 0 <= s < 3 ensures StateOk(t, s) { LetterStates(c, s); }
    forall s | 0 < s < 3 ensures EofOk(t, s) {
      LetterActions(c, t.eofTrans[s] - 1, true);
      LetterActions(c, t.eofTrans[s] - 1, false);
    }
  }

  lemma LetterSteps(c: int, d: int)
    requires WellFormed(OneLetter(c))
    ensures Picked(OneLetter(c), 1, d) == (if d == c then 1 else 2) && Picked(OneLetter(c), 2, d) == 3
  {
    var t := OneLetter(c);
    assert StateOk(t, 1) && StateOk(t, 2);
    assert t.transKeys[0..1] == [c] && [c][1..] == [] && t.transKeys[1..1] == [];
  }

  /** They are well-formed, and accept that letter alone. */
  lemma LetterAccepted(c: int, input: seq<int>)
    ensures WellFormed(OneLetter(c)) && (Accepts(OneLetter(c), input) <==> input == [c])
  {
    LetterWellFormed(c);
    var t := OneLetter(c);
    if input != [] {
      LetterSteps(c, input[0]);
      var rest := input[1..];
      assert Reached(t, 1, input) == Reached(t, if input[0] == c then 2 else 0, rest);
      if rest == [] {
        assert input == [input[0]];
      } else {
        LetterSteps(c, rest[0]);
        assert Reached(t, 2, rest) == Reached(t, 0, rest[1..]);
      }
    }
  }
}
