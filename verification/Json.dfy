/** JSON values as the validator sees them, their equality, JSON pointers (RFC 6901)
    and the `add` operation of JSON Patch (RFC 6902). */

module Wrappers {
  datatype Option<+T> = None | Some(value: T) {
    function GetOr(default: T): T { if Some? then value else default }
  }
  datatype Result<+T, +E> = Ok(value: T) | Err(error: E)

  ghost predicate NoRepeats<T>(items: seq<T>) {
    forall i, h | 0 <= i < h < |items| :: items[i] != items[h]
  }

  lemma {:induction false} CountedOnce<T>(items: seq<T>, x: T)
    requires NoRepeats(items)
    ensures multiset(items)[x] == if x in items then 1 else 0
  {
    if items != [] {
      CountedOnce(items[1..], x);
      assert items == [items[0]] + items[1..];
      assert items[0] !in items[1..] by {
        forall i | 1 <= i < |items| ensures items[i] != items[0] {}
      }
    }
  }
}

module Json {
  import opened Wrappers

  datatype Member = Member(key: string, value: Json)

  /** Integer, unsigned and floating-point numbers are three kinds of value. Objects list
      their members in the key order of `std::map`, see `WellFormed`. */
  datatype Json =
    | Null
    | Boolean(b: bool)
    | Integer(i: int)
    | Unsigned(u: nat)
    | Float(r: real)
    | String(s: string)
    | Array(items: seq<Json>)
    | Object(members: seq<Member>)

  type Pointer = seq<string>

  // ---------------------------------------------------------------- size

  function Size(j: Json): (n: nat)
    ensures n >= 1
    decreases j, 1
  {
    match j
    case Array(items) => 1 + SizeItems(items)
    case Object(members) => 1 + SizeMembers(members)
    case _ => 1
  }

  function SizeItems(items: seq<Json>): (n: nat)
    ensures forall i | 0 <= i < |items| :: Size(items[i]) <= n
    decreases items, 0
  {
    if items == [] then 0 else Size(items[0]) + SizeItems(items[1..])
  }

  function SizeMembers(members: seq<Member>): (n: nat)
    ensures forall i | 0 <= i < |members| :: Size(members[i].value) + 1 <= n
    decreases members, 0
  {
    if members == [] then 0 else 1 + Size(members[0].value) + SizeMembers(members[1..])
  }

  // ---------------------------------------------------------------- key order

  predicate StringLess(a: string, b: string) {
    |b| > 0 && (|a| == 0 || a[0] < b[0] || (a[0] == b[0] && StringLess(a[1..], b[1..])))
  }

  lemma {:induction false} StringLessTransitive(a: string, b: string, c: string)
    requires StringLess(a, b) && StringLess(b, c)
    ensures StringLess(a, c)
  {
    if |a| > 0 && a[0] == b[0] && b[0] == c[0] {
      StringLessTransitive(a[1..], b[1..], c[1..]);
    }
  }

  lemma {:induction false} StringLessTrichotomy(a: string, b: string)
    ensures StringLess(a, b) || a == b || StringLess(b, a)
    ensures !(StringLess(a, b) && StringLess(b, a))
    ensures StringLess(a, b) ==> a != b
  {
    if |a| > 0 && |b| > 0 && a[0] == b[0] {
      StringLessTrichotomy(a[1..], b[1..]);
      assert a == [a[0]] + a[1..] && b == [b[0]] + b[1..];
    }
  }

  ghost predicate SortedKeys(members: seq<Member>) {
    forall i, j | 0 <= i < j < |members| :: StringLess(members[i].key, members[j].key)
  }

  /** Every object, at any depth, lists its members in strictly increasing key order. */
  ghost predicate WellFormed(j: Json)
    decreases j
  {
    match j
    case Array(items) => forall i | 0 <= i < |items| :: WellFormed(items[i])
    case Object(members) =>
      SortedKeys(members) && forall i | 0 <= i < |members| :: WellFormed(members[i].value)
    case _ => true
  }

  // ---------------------------------------------------------------- members

  /** Position of the first member with this key, |members| when there is none. */
  function IndexOf(members: seq<Member>, key: string): (i: nat)
    ensures i <= |members|
    ensures i < |members| ==> members[i].key == key
    ensures forall j | 0 <= j < i :: members[j].key != key
  {
    if members == [] then 0
    else if members[0].key == key then 0
    else 1 + IndexOf(members[1..], key)
  }

  predicate Has(members: seq<Member>, key: string) {
    IndexOf(members, key) < |members|
  }

  function Get(members: seq<Member>, key: string): Json
    requires Has(members, key)
  {
    members[IndexOf(members, key)].value
  }

  lemma {:induction false} GetAt(members: seq<Member>, i: nat)
    requires SortedKeys(members) && i < |members|
    ensures Has(members, members[i].key) && IndexOf(members, members[i].key) == i
    ensures Get(members, members[i].key) == members[i].value
  {
    var k := IndexOf(members, members[i].key);
    if k < i {
      StringLessTrichotomy(members[k].key, members[i].key);
    }
  }

  /** `object[key] = value` on the ordered map: replaces the member or inserts it in key order. */
  function Put(members: seq<Member>, key: string, value: Json): (r: seq<Member>)
  {
    if members == [] then [Member(key, value)]
    else if members[0].key == key then [Member(key, value)] + members[1..]
    else if StringLess(key, members[0].key) then [Member(key, value)] + members
    else [members[0]] + Put(members[1..], key, value)
  }

  /** The members after a Put: the new one, and members there before. */
  lemma {:induction false} PutMembers(members: seq<Member>, key: string, value: Json, i: nat)
    requires i < |Put(members, key, value)|
    ensures Put(members, key, value)[i] == Member(key, value) || exists h ::
      0 <= h < |members| && members[h] == Put(members, key, value)[i]
  {
    var r := Put(members, key, value);
    if members == [] {
    } else if members[0].key == key {
      if i > 0 { assert r[i] == members[i]; }
    } else if StringLess(key, members[0].key) {
      if i > 0 { assert r[i] == members[i - 1]; }
    } else if i == 0 {
      assert r[0] == members[0];
    } else {
      PutMembers(members[1..], key, value, i - 1);
      assert r[i] == Put(members[1..], key, value)[i - 1];
      if r[i] != Member(key, value) {
        var h :| 0 <= h < |members[1..]| && members[1..][h] == r[i];
        assert members[h + 1] == r[i];
      }
    }
  }

  lemma HasAt(members: seq<Member>, i: nat)
    requires i < |members|
    ensures Has(members, members[i].key)
  {
    var k := IndexOf(members, members[i].key);
    assert !(i < k);
  }

  lemma ReadCons(first: Member, rest: seq<Member>, key: string)
    ensures Has([first] + rest, key) == (first.key == key || Has(rest, key))
    ensures first.key == key ==> Get([first] + rest, key) == first.value
    ensures first.key != key && Has(rest, key) ==> Get([first] + rest, key) == Get(rest, key)
  {
    assert ([first] + rest)[1..] == rest;
  }

  /** After a Put the key reads back the value and every other key reads as before. */
  lemma {:induction false} PutGet(members: seq<Member>, key: string, value: Json, other: string)
    ensures Has(Put(members, key, value), key) && Get(Put(members, key, value), key) == value
    ensures other != key ==> Has(Put(members, key, value), other) == Has(members, other)
    ensures other != key && Has(members, other) ==> Get(Put(members, key, value), other) == Get(members, other)
  {
    if members == [] {
      ReadCons(Member(key, value), [], key);
      ReadCons(Member(key, value), [], other);
      assert [Member(key, value)] + [] == [Member(key, value)];
    } else {
      var first, rest := members[0], members[1..];
      assert members == [first] + rest;
      ReadCons(first, rest, other);
      if first.key == key {
        ReadCons(Member(key, value), rest, key);
        ReadCons(Member(key, value), rest, other);
      } else if StringLess(key, first.key) {
        ReadCons(Member(key, value), members, key);
        ReadCons(Member(key, value), members, other);
      } else {
        PutGet(rest, key, value, other);
        ReadCons(first, Put(rest, key, value), key);
        ReadCons(first, Put(rest, key, value), other);
      }
    }
  }

  lemma {:induction false} PutSorted(members: seq<Member>, key: string, value: Json)
    requires SortedKeys(members)
    ensures SortedKeys(Put(members, key, value))
  {
    var r := Put(members, key, value);
    if members == [] {
    } else if members[0].key == key {
      assert forall i | 0 < i < |r| :: r[i] == members[i];
    } else if StringLess(key, members[0].key) {
      forall i, j | 0 <= i < j < |r| ensures StringLess(r[i].key, r[j].key) {
        if i == 0 && j > 1 {
          StringLessTransitive(key, members[0].key, members[j - 1].key);
        }
      }
    } else {
      var tail := Put(members[1..], key, value);
      PutSorted(members[1..], key, value);
      StringLessTrichotomy(key, members[0].key);
      forall j | 0 <= j < |tail| ensures StringLess(members[0].key, tail[j].key) {
        PutMembers(members[1..], key, value, j);
        if tail[j] != Member(key, value) {
          var h :| 0 <= h < |members[1..]| && members[1..][h] == tail[j];
          assert members[h + 1] == tail[j];
        }
      }
    }
  }

  /** The number a value is, of whatever kind. */
  ghost predicate IsNumber(j: Json, x: real) {
    match j
    case Integer(i) => x == i as real
    case Unsigned(u) => x == u as real
    case Float(r) => x == r
    case _ => false
  }

  // ---------------------------------------------------------------- equality

  /** `operator==` of the JSON library: numbers of different kinds compare by value. */
  predicate JsonEq(a: Json, b: Json)
    decreases a, 1
  {
    match (a, b)
    case (Null, Null) => true
    case (Boolean(x), Boolean(y)) => x == y
    case (Integer(x), Integer(y)) => x == y
    case (Unsigned(x), Unsigned(y)) => x == y
    case (Float(x), Float(y)) => x == y
    case (Integer(x), Unsigned(y)) => x == y
    case (Unsigned(x), Integer(y)) => x == y
    case (Integer(x), Float(y)) => x as real == y
    case (Float(x), Integer(y)) => x == y as real
    case (Unsigned(x), Float(y)) => x as real == y
    case (Float(x), Unsigned(y)) => x == y as real
    case (String(x), String(y)) => x == y
    case (Array(x), Array(y)) => |x| == |y| && ItemsEq(x, y)
    case (Object(x), Object(y)) => |x| == |y| && MembersEq(x, y)
    case _ => false
  }

  predicate ItemsEq(x: seq<Json>, y: seq<Json>)
    requires |x| == |y|
    decreases x, 0
  {
    x == [] || (JsonEq(x[0], y[0]) && ItemsEq(x[1..], y[1..]))
  }

  predicate MembersEq(x: seq<Member>, y: seq<Member>)
    requires |x| == |y|
    decreases x, 0
  {
    x == [] || (x[0].key == y[0].key && JsonEq(x[0].value, y[0].value) && MembersEq(x[1..], y[1..]))
  }

  /** The value with every number written as a real: what equality really compares. */
  function Normal(j: Json): Json
    decreases j, 1
  {
    match j
    case Integer(i) => Float(i as real)
    case Unsigned(u) => Float(u as real)
    case Array(items) => Array(NormalItems(items))
    case Object(members) => Object(NormalMembers(members))
    case _ => j
  }

  function NormalItems(items: seq<Json>): (r: seq<Json>)
    ensures |r| == |items|
    decreases items, 0
  {
    if items == [] then [] else [Normal(items[0])] + NormalItems(items[1..])
  }

  function NormalMembers(members: seq<Member>): (r: seq<Member>)
    ensures |r| == |members|
    decreases members, 0
  {
    if members == [] then []
    else [Member(members[0].key, Normal(members[0].value))] + NormalMembers(members[1..])
  }

  lemma {:induction false} EqualIffSameNormal(a: Json, b: Json)
    ensures JsonEq(a, b) <==> Normal(a) == Normal(b)
    decreases a, 1
  {
    match (a, b)
    case (Array(x), Array(y)) => if |x| == |y| { ItemsEqualIffSameNormal(x, y); }
    case (Object(x), Object(y)) => if |x| == |y| { MembersEqualIffSameNormal(x, y); }
    case _ =>
  }

  lemma {:induction false} ItemsEqualIffSameNormal(x: seq<Json>, y: seq<Json>)
    requires |x| == |y|
    ensures ItemsEq(x, y) <==> NormalItems(x) == NormalItems(y)
    decreases x, 0
  {
    if x != [] {
      EqualIffSameNormal(x[0], y[0]);
      ItemsEqualIffSameNormal(x[1..], y[1..]);
      assert NormalItems(x)[0] == Normal(x[0]) && NormalItems(y)[0] == Normal(y[0]);
      assert NormalItems(x)[1..] == NormalItems(x[1..]) && NormalItems(y)[1..] == NormalItems(y[1..]);
    }
  }

  lemma {:induction false} MembersEqualIffSameNormal(x: seq<Member>, y: seq<Member>)
    requires |x| == |y|
    ensures MembersEq(x, y) <==> NormalMembers(x) == NormalMembers(y)
    decreases x, 0
  {
    if x != [] {
      EqualIffSameNormal(x[0].value, y[0].value);
      MembersEqualIffSameNormal(x[1..], y[1..]);
      assert NormalMembers(x)[0] == Member(x[0].key, Normal(x[0].value));
      assert NormalMembers(y)[0] == Member(y[0].key, Normal(y[0].value));
      assert NormalMembers(x)[1..] == NormalMembers(x[1..]) && NormalMembers(y)[1..] == NormalMembers(y[1..]);
    }
  }

  // ---------------------------------------------------------------- decimal indices

  function Decimal(n: nat): (s: string)
    ensures |s| >= 1
    ensures forall i | 0 <= i < |s| :: '0' <= s[i] <= '9'
    ensures |s| > 1 ==> s[0] != '0'
    ensures n > 0 ==> s[0] != '0'
  {
    if n < 10 then [('0' as int + n) as char] else Decimal(n / 10) + [('0' as int + n % 10) as char]
  }

  function DigitsValue(s: string): nat
    requires forall i | 0 <= i < |s| :: '0' <= s[i] <= '9'
  {
    if s == [] then 0 else 10 * DigitsValue(s[..|s| - 1]) + (s[|s| - 1] as int - '0' as int)
  }

  lemma {:induction false} DecimalValue(n: nat)
    ensures DigitsValue(Decimal(n)) == n
  {
    if n >= 10 {
      DecimalValue(n / 10);
      var s := Decimal(n);
      assert s[..|s| - 1] == Decimal(n / 10);
    } else {
      assert Decimal(n)[..0] == [];
    }
  }

  lemma DecimalAppended(v: nat, digit: nat)
    requires 0 < v && digit < 10
    ensures Decimal(10 * v + digit) == Decimal(v) + [('0' as int + digit) as char]
  {
    assert (10 * v + digit) / 10 == v && (10 * v + digit) % 10 == digit;
  }

  /** A numeral without leading zeros is the decimal form of its value. */
  lemma {:induction false} DecimalOfValue(s: string)
    requires s != [] && forall i | 0 <= i < |s| :: '0' <= s[i] <= '9'
    requires |s| > 1 ==> s[0] != '0'
    ensures Decimal(DigitsValue(s)) == s
  {
    var front, last := s[..|s| - 1], s[|s| - 1];
    assert s == front + [last];
    if front == [] {
      assert DigitsValue(front) == 0;
    } else {
      DecimalOfValue(front);
      assert front[0] == s[0];
      DecimalAppended(DigitsValue(front), last as int - '0' as int);
    }
  }

  // ---------------------------------------------------------------- pointers

  /** Outcome of `at(pointer)`: an element, the `out_of_range` exception or the `parse_error` one. */
  datatype Lookup = Found(json: Json) | OutOfRange | ParseError

  function Child(j: Json, token: string): Lookup {
    match j
    case Object(members) => if Has(members, token) then Found(Get(members, token)) else OutOfRange
    case Array(items) => ItemAt(items, token)
    case _ => OutOfRange
  }

  function ItemAt(items: seq<Json>, token: string): Lookup {
    if token == "-" then OutOfRange
    else if |token| > 1 && !('1' <= token[0] <= '9') then ParseError
    else if |token| == 0 || exists i | 0 <= i < |token| :: !('0' <= token[i] <= '9') then OutOfRange
    else if DigitsValue(token) < |items| then Found(items[DigitsValue(token)])
    else OutOfRange
  }

  function At(j: Json, pointer: Pointer): Lookup {
    if pointer == [] then Found(j)
    else match Child(j, pointer[0])
      case Found(c) => At(c, pointer[1..])
      case other => other
  }

  lemma {:induction false} AtAppend(j: Json, pointer: Pointer, token: string)
    requires At(j, pointer).Found?
    ensures At(j, pointer + [token]) == Child(At(j, pointer).json, token)
  {
    if pointer == [] {
      assert (pointer + [token])[1..] == [];
    } else {
      AtAppend(Child(j, pointer[0]).json, pointer[1..], token);
      assert (pointer + [token])[1..] == pointer[1..] + [token];
    }
  }

  lemma {:induction false} AtItem(items: seq<Json>, i: nat)
    requires i < |items|
    ensures Child(Array(items), Decimal(i)) == Found(items[i])
  {
    DecimalValue(i);
  }

  lemma AtMember(members: seq<Member>, i: nat)
    requires SortedKeys(members) && i < |members|
    ensures Child(Object(members), members[i].key) == Found(members[i].value)
  {
    GetAt(members, i);
  }
}
