/**
  The order of keys in a jsonb column, said in the terms of its definition: by the bytes of their
  encoding, and by number for the keys that a parsed object lists first.
 */
module KeyOrder {
  import opened Json
  import opened JsonText
  import opened Jsonb
  import JsonGrammar

  // ---------------------------------------------------------------- in bytes

  type Byte = b: int | 0 <= b < 256

  /** The encoding of section 3 of RFC 3629. */
  function Encoded(c: char): (r: seq<Byte>)
    ensures |r| >= 1
  {
    var n := c as int;
    if n < 0x80 then [n]
    else if n < 0x800 then [0xC0 + n / 0x40, 0x80 + n % 0x40]
    else if n < 0x1_0000 then [0xE0 + n / 0x1000, 0x80 + n / 0x40 % 0x40, 0x80 + n % 0x40]
    else [0xF0 + n / 0x4_0000, 0x80 + n / 0x1000 % 0x40, 0x80 + n / 0x40 % 0x40, 0x80 + n % 0x40]
  }

  function Utf8(s: string): seq<Byte> {
    if s == "" then [] else Encoded(s[0]) + Utf8(s[1..])
  }

  /** `memcmp`: the first byte that differs decides, and a prefix comes first. */
  predicate BytesBefore(a: seq<Byte>, b: seq<Byte>) {
    b != [] && (a == [] || a[0] < b[0] || (a[0] == b[0] && BytesBefore(a[1..], b[1..])))
  }

  lemma {:induction false} LengthInBytes(s: string)
    ensures Utf8Length(s) == |Utf8(s)|
  {
    if s != "" {
      LengthInBytes(s[1..]);
    }
  }

  /** Equal bytes in front do not decide. */
  lemma {:induction false} SamePrefix(p: seq<Byte>, a: seq<Byte>, b: seq<Byte>)
    ensures BytesBefore(p + a, p + b) <==> BytesBefore(a, b)
  {
    if p == [] {
      assert p + a == a && p + b == b;
    } else {
      assert (p + a)[1..] == p[1..] + a && (p + b)[1..] == p[1..] + b;
      SamePrefix(p[1..], a, b);
    }
  }

  /** Two characters are ordered as their encodings are, whatever follows. */
  lemma {:induction false} CharactersInBytes(c: char, d: char, x: seq<Byte>, y: seq<Byte>)
    requires c < d
    ensures BytesBefore(Encoded(c) + x, Encoded(d) + y) && !BytesBefore(Encoded(d) + y, Encoded(c) + x)
  {
    var i := FirstDifference(c, d);
    var a, b := Encoded(c) + x, Encoded(d) + y;
    assert a[..i] == b[..i] && a[i] == Encoded(c)[i] < Encoded(d)[i] == b[i];
    assert a == a[..i] + a[i..] && b == b[..i] + b[i..];
    SamePrefix(a[..i], a[i..], b[i..]);
    SamePrefix(a[..i], b[i..], a[i..]);
  }

  lemma {:induction false} Division(m: nat, n: nat)
    requires m < n
    ensures m / 0x40 < n / 0x40 || (m / 0x40 == n / 0x40 && m % 0x40 < n % 0x40)
    ensures m / 0x40 / 0x40 == m / 0x1000 && m / 0x1000 / 0x40 == m / 0x4_0000
  {
  }

  /** `i` is the first byte in which the encodings differ, and it is smaller in the first one. */
  predicate DiffersAt(a: seq<Byte>, b: seq<Byte>, i: nat) {
    i < |a| && i < |b| && a[..i] == b[..i] && a[i] < b[i]
  }

  lemma {:induction false} DifferenceInTwo(c: char, d: char) returns (i: nat)
    requires c < d && |Encoded(c)| == |Encoded(d)| == 2
    ensures DiffersAt(Encoded(c), Encoded(d), i)
  {
    Division(c as int, d as int);
    i := if c as int / 0x40 < d as int / 0x40 then 0 else 1;
  }

  lemma {:induction false} DifferenceInThree(c: char, d: char) returns (i: nat)
    requires c < d && |Encoded(c)| == |Encoded(d)| == 3
    ensures DiffersAt(Encoded(c), Encoded(d), i)
  {
    var m, n := c as int, d as int;
    Division(m, n);
    if m / 0x40 == n / 0x40 {
      return 2;
    }
    Division(m / 0x40, n / 0x40);
    i := if m / 0x1000 < n / 0x1000 then 0 else 1;
  }

  lemma {:induction false} DifferenceInFour(c: char, d: char) returns (i: nat)
    requires c < d && |Encoded(c)| == |Encoded(d)| == 4
    ensures DiffersAt(Encoded(c), Encoded(d), i)
  {
    var m, n := c as int, d as int;
    Division(m, n);
    if m / 0x40 == n / 0x40 {
      return 3;
    }
    Division(m / 0x40, n / 0x40);
    if m / 0x1000 == n / 0x1000 {
      return 2;
    }
    Division(m / 0x1000, n / 0x1000);
    i := if m / 0x4_0000 < n / 0x4_0000 then 0 else 1;
  }

  lemma {:induction false} FirstDifference(c: char, d: char) returns (i: nat)
    requires c < d
    ensures DiffersAt(Encoded(c), Encoded(d), i)
  {
    if |Encoded(c)| == |Encoded(d)| == 2 {
      i := DifferenceInTwo(c, d);
    } else if |Encoded(c)| == |Encoded(d)| == 3 {
      i := DifferenceInThree(c, d);
    } else if |Encoded(c)| == |Encoded(d)| == 4 {
      i := DifferenceInFour(c, d);
    } else {
      i := 0;
    }
  }

  /** The order of characters is that of the bytes. */
  lemma {:induction false} SmallerInBytes(a: string, b: string)
    ensures Smaller(a, b) <==> BytesBefore(Utf8(a), Utf8(b))
  {
    if a != "" && b != "" {
      if a[0] == b[0] {
        SmallerInBytes(a[1..], b[1..]);
        SamePrefix(Encoded(a[0]), Utf8(a[1..]), Utf8(b[1..]));
      } else if a[0] < b[0] {
        CharactersInBytes(a[0], b[0], Utf8(a[1..]), Utf8(b[1..]));
      } else {
        CharactersInBytes(b[0], a[0], Utf8(b[1..]), Utf8(a[1..]));
      }
    }
  }

  /** The column's order in bytes: shorter keys first, keys of one length as `memcmp` orders them. */
  lemma {:induction false} KeptInBytes(a: string, b: string)
    ensures KeptBefore(a, b) <==>
      |Utf8(a)| < |Utf8(b)| || (|Utf8(a)| == |Utf8(b)| && BytesBefore(Utf8(a), Utf8(b)))
  {
    LengthInBytes(a);
    LengthInBytes(b);
    SmallerInBytes(a, b);
  }

  // ---------------------------------------------------------------- by number

  function PowerOfTen(n: nat): (p: nat)
    ensures p >= 1
  {
    if n == 0 then 1 else 10 * PowerOfTen(n - 1)
  }

  predicate Numeral(s: string) { s != "" && forall c :: c in s ==> IsDigit(c) }

  /** The first digit of a number weighs more than all that follow. */
  lemma {:induction false} FirstDigitWeighs(s: string)
    requires Numeral(s)
    ensures forall c :: c in s[1..] ==> IsDigit(c)
    ensures s[0] in s && Value(s) == DigitValue(s[0]) * PowerOfTen(|s| - 1) + Value(s[1..])
    ensures Value(s[1..]) < PowerOfTen(|s| - 1)
    decreases |s|
  {
    assert s[0] in s && forall c :: c in s[1..] ==> c in s;
    if |s| > 1 {
      var front, last := s[..|s| - 1], s[|s| - 1];
      assert last in s && forall c :: c in front ==> c in s;
      FirstDigitWeighs(front);
      assert s[1..][..|s| - 2] == front[1..] && s[1..][|s| - 2] == last && front[0] == s[0];
      var v := Value(front[1..]);
      assert Value(s) == 10 * Value(front) + DigitValue(last) && Value(s[1..]) == 10 * v + DigitValue(last);
      TenTimes(DigitValue(s[0]), PowerOfTen(|s| - 2), v, DigitValue(last));
    }
  }

  lemma {:induction false} TenTimes(d: nat, p: nat, v: nat, last: nat)
    requires v < p && last < 10
    ensures 10 * (d * p + v) + last == d * (10 * p) + (10 * v + last) && 10 * v + last < 10 * p
  {
  }

  lemma {:induction false} OneByteEach(s: string)
    requires forall c :: c in s ==> IsDigit(c)
    ensures Utf8Length(s) == |s|
  {
    if s != "" {
      assert s[0] in s && forall c :: c in s[1..] ==> c in s;
      OneByteEach(s[1..]);
    }
  }

  /** Of two numbers with as many digits the first different digit decides. */
  lemma {:induction false} SameLengthByNumber(a: string, b: string)
    requires |a| == |b| && (a != "" ==> Numeral(a) && Numeral(b))
    ensures Smaller(a, b) <==> a != "" && Value(a) < Value(b)
  {
    if a != "" {
      FirstDigitWeighs(a);
      FirstDigitWeighs(b);
      assert |a| > 1 ==> Numeral(a[1..]) && Numeral(b[1..]);
      SameLengthByNumber(a[1..], b[1..]);
      var p := PowerOfTen(|a| - 1);
      if a[0] < b[0] {
        Weighs(DigitValue(a[0]), DigitValue(b[0]), p);
      } else if b[0] < a[0] {
        Weighs(DigitValue(b[0]), DigitValue(a[0]), p);
      }
    }
  }

  lemma {:induction false} Weighs(d: nat, e: nat, p: nat)
    requires d < e
    ensures d * p + p <= e * p
  {
    assert e * p == d * p + p + (e - d - 1) * p;
    NotNegative(e - d - 1, p);
  }

  lemma {:induction false} NotNegative(m: nat, n: nat)
    ensures m * n >= 0
  {
  }

  /** More digits, without a leading zero, make a larger number. */
  lemma {:induction false} LongerIsLarger(a: string, b: string)
    requires Numeral(a) && Numeral(b) && |a| < |b| && b[0] != '0'
    ensures Value(a) < Value(b)
  {
    FirstDigitWeighs(a);
    FirstDigitWeighs(b);
    Weighs(DigitValue(a[0]), 10, PowerOfTen(|a| - 1));
    PowersRise(|a|, |b| - 1);
    Weighs(0, DigitValue(b[0]), PowerOfTen(|b| - 1));
  }

  lemma {:induction false} PowersRise(m: nat, n: nat)
    requires m <= n
    ensures PowerOfTen(m) <= PowerOfTen(n)
    decreases n
  {
    if m < n {
      PowersRise(m, n - 1);
    }
  }

  /** The keys that are array indices come in the order of their numbers. */
  lemma {:induction false} IndicesByNumber(a: string, b: string)
    requires IsIndex(a) && IsIndex(b)
    ensures Before(a, b) <==> Value(a) < Value(b)
  {
    OneByteEach(a);
    OneByteEach(b);
    if |a| == |b| {
      SameLengthByNumber(a, b);
    } else if |a| < |b| {
      LongerIsLarger(a, b);
    } else {
      LongerIsLarger(b, a);
    }
  }

  /** An array index is the decimal text of a number below 2^32 - 1, and every such text is one. */
  lemma {:induction false} IndicesExactly(key: string)
    ensures IsIndex(key) <==> exists n: nat :: n < 0xFFFF_FFFF && key == Decimal(n)
  {
    if IsIndex(key) {
      DigitsOfValue(key);
      assert key == Decimal(Value(key));
    }
    forall n: nat | n < 0xFFFF_FFFF && key == Decimal(n) ensures IsIndex(key) {
      JsonGrammar.NoLeadingZero(n);
    }
  }

  lemma {:induction false} DigitsOfValue(s: string)
    requires Numeral(s) && (|s| > 1 ==> s[0] != '0')
    ensures Digits(Value(s)) == s
    decreases |s|
  {
    var front, last := s[..|s| - 1], s[|s| - 1];
    assert last in s && forall c :: c in front ==> c in s;
    assert s == front + [last];
    DigitOfValue(last);
    if front != "" {
      assert front[0] == s[0];
      DigitsOfValue(front);
      PositiveNumeral(front);
      OneMoreDigit(Value(front), last);
    }
  }

  lemma {:induction false} PositiveNumeral(s: string)
    requires Numeral(s) && s[0] != '0'
    ensures Value(s) >= 1
  {
    FirstDigitWeighs(s);
    Weighs(0, DigitValue(s[0]), PowerOfTen(|s| - 1));
  }

  lemma {:induction false} OneMoreDigit(n: nat, last: char)
    requires n >= 1 && IsDigit(last)
    ensures Digits(10 * n + DigitValue(last)) == Digits(n) + [last]
  {
    var m := 10 * n + DigitValue(last);
    assert m / 10 == n && m % 10 == DigitValue(last);
    DigitOfValue(last);
  }

  lemma {:induction false} DigitOfValue(c: char)
    requires IsDigit(c)
    ensures Digit(DigitValue(c)) == c
  {
  }

  /** The whole order: indices first and by number, then all other keys as the column keeps them. */
  lemma {:induction false} OrderExactly(a: string, b: string)
    ensures Before(a, b) <==>
      if IsIndex(a) && IsIndex(b) then Value(a) < Value(b)
      else if IsIndex(a) || IsIndex(b) then IsIndex(a)
      else |Utf8(a)| < |Utf8(b)| || (|Utf8(a)| == |Utf8(b)| && BytesBefore(Utf8(a), Utf8(b)))
  {
    KeptInBytes(a, b);
    if IsIndex(a) && IsIndex(b) {
      IndicesByNumber(a, b);
    }
  }
}
