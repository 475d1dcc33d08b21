/**
  `JSON.stringify` (section 25.5.2 of ECMA-262) on the values of module Json, and the proof that it
  loses nothing: two values with the same text are equal. The engine decides equality by comparing texts.
 */
module JsonText {
  import opened Json

  // ---------------------------------------------------------------- numbers

  predicate IsDigit(c: char) { '0' <= c <= '9' }

  function Digit(d: nat): (c: char)
    requires d < 10
    ensures IsDigit(c) && DigitValue(c) == d
  {
    d as char + '0'
  }

  function DigitValue(c: char): (d: nat)
    requires IsDigit(c)
    ensures d < 10
  {
    (c as int) - ('0' as int)
  }

  function Digits(n: nat): (s: string)
    ensures |s| >= 1 && forall c :: c in s ==> IsDigit(c)
    ensures Value(s) == n
  {
    if n < 10 then [Digit(n)] else Digits(n / 10) + [Digit(n % 10)]
  }

  /** The number a digit string denotes. */
  function Value(s: string): nat
    requires forall c :: c in s ==> IsDigit(c)
  {
    if s == [] then 0 else 10 * Value(s[..|s| - 1]) + DigitValue(s[|s| - 1])
  }

  /** `String(n)` for an integer. */
  function Decimal(n: int): (s: string)
    ensures |s| >= 1 && (if n < 0 then s[0] == '-' else IsDigit(s[0]))
  {
    if n < 0 then "-" + Digits(-n) else Digits(n)
  }

  // ---------------------------------------------------------------- strings

  function Hex(d: nat): (c: char)
    requires d < 16
  {
    if d < 10 then Digit(d) else ['a', 'b', 'c', 'd', 'e', 'f'][d - 10]
  }

  /** QuoteJSONString, one character at a time. */
  function Escape(c: char): (s: string)
    ensures |s| >= 1
  {
    if c == '\"' then "\\\""
    else if c == '\\' then "\\\\"
    else if c == 8 as char then "\\b"
    else if c == '\t' then "\\t"
    else if c == '\n' then "\\n"
    else if c == 12 as char then "\\f"
    else if c == '\r' then "\\r"
    else if c < ' ' then "\\u00" + [Hex(c as int / 16), Hex(c as int % 16)]
    else [c]
  }

  /** The escaped characters and the closing quote. */
  function Body(s: string): (r: string)
    ensures |r| >= 1
  {
    if s == "" then "\"" else Escape(s[0]) + Body(s[1..])
  }

  function Quoted(s: string): string { "\"" + Body(s) }

  // ---------------------------------------------------------------- values

  function Stringify(j: Json): (s: string)
    ensures |s| >= 1
    decreases j, 0
  {
    match j
    case Null => "null"
    case Bool(b) => if b then "true" else "false"
    case Num(n) => Decimal(n)
    case Str(s) => Quoted(s)
    case Arr(items) => if items == [] then "[]" else "[" + Stringify(items[0]) + Items(items[1..])
    case Obj(fields) => if fields == [] then "{}" else "{" + Member(fields[0]) + Members(fields[1..])
  }

  /** The remaining items, each after its comma, and the bracket. */
  function Items(items: seq<Json>): (s: string)
    ensures |s| >= 1
  {
    if items == [] then "]" else "," + Stringify(items[0]) + Items(items[1..])
  }

  function Member(f: Field): (s: string)
    ensures |s| >= 1 && s[0] == '\"'
  {
    Quoted(f.key) + (":" + Stringify(f.value))
  }

  function Members(fields: seq<Field>): (s: string)
    ensures |s| >= 1
  {
    if fields == [] then "}" else "," + Member(fields[0]) + Members(fields[1..])
  }

  // ---------------------------------------------------------------- reading it back

  /** What can follow a value inside a text: nothing, a comma or a closing bracket. */
  predicate Ends(x: string) {
    x == "" || x[0] == ',' || x[0] == ']' || x[0] == '}'
  }

  lemma {:induction false} SameLength(a: string, b: string, x: string, y: string)
    requires a + x == b + y && |a| == |b|
    ensures a == b && x == y
  {
    assert (a + x)[..|a|] == a && (b + y)[..|a|] == b;
    assert (a + x)[|a|..] == x && (b + y)[|a|..] == y;
  }

  predicate AllDigits(s: string) { forall i :: 0 <= i < |s| ==> IsDigit(s[i]) }

  lemma {:induction false} NotShorter(a: string, b: string, x: string, y: string)
    requires AllDigits(b) && Ends(x) && a + x == b + y
    ensures |a| >= |b|
  {
    assert forall i :: 0 <= i < |b| ==> (b + y)[i] == b[i];
    assert x != "" ==> (a + x)[|a|] == x[0];
  }

  lemma {:induction false} DigitsEnd(a: string, b: string, x: string, y: string)
    requires AllDigits(a) && AllDigits(b) && Ends(x) && Ends(y) && a + x == b + y
    ensures a == b && x == y
  {
    NotShorter(a, b, x, y);
    NotShorter(b, a, y, x);
    SameLength(a, b, x, y);
  }

  lemma {:induction false} NatEnd(n: nat, m: nat, x: string, y: string)
    requires Ends(x) && Ends(y) && Digits(n) + x == Digits(m) + y
    ensures n == m && x == y
  {
    DigitsEnd(Digits(n), Digits(m), x, y);
    assert n == Value(Digits(n)) && Value(Digits(m)) == m;
  }

  /** `s + x == t + y`, where both texts are a first character, a part and the rest. */
  lemma {:induction false} Peel(s: string, t: string, x: string, y: string,
                                c: char, a: string, b: string, d: char, a': string, b': string)
    requires s + x == t + y && s == [c] + a + b && t == [d] + a' + b'
    ensures c == d && a + (b + x) == a' + (b' + y)
  {
    assert (s + x)[0] == c && (t + y)[0] == d;
    assert (s + x)[1..] == a + (b + x) && (t + y)[1..] == a' + (b' + y);
  }

  lemma {:induction false} SameHead(s: string, t: string, x: string, y: string)
    requires s + x == t + y && |s| >= 1 && |t| >= 1
    ensures s[0] == t[0]
  {
    assert (s + x)[0] == s[0] && (t + y)[0] == t[0];
  }

  lemma {:induction false} DecimalEnd(n: int, m: int, x: string, y: string)
    requires Ends(x) && Ends(y) && Decimal(n) + x == Decimal(m) + y
    ensures n == m && x == y
  {
    SameHead(Decimal(n), Decimal(m), x, y);
    if n >= 0 && m >= 0 {
      NatEnd(n, m, x, y);
    } else if n < 0 && m < 0 {
      Peel(Decimal(n), Decimal(m), x, y, '-', Digits(-n), "", '-', Digits(-m), "");
      assert "" + x == x && "" + y == y;
      NatEnd(-n, -m, x, y);
    }
  }

  lemma {:induction false} EscapeIsUnique(c: char, d: char)
    requires Escape(c)[0] == Escape(d)[0]
    requires |Escape(c)| > 1 && |Escape(d)| > 1 ==> Escape(c)[1] == Escape(d)[1]
    requires |Escape(c)| == |Escape(d)| == 6 ==> Escape(c)[4..] == Escape(d)[4..]
    ensures c == d
  {
  }

  lemma {:induction false} EscapeEnd(c: char, d: char, x: string, y: string)
    requires Escape(c) + x == Escape(d) + y
    ensures c == d && x == y
  {
    var a, b := Escape(c), Escape(d);
    assert (a + x)[0] == a[0] && (b + y)[0] == b[0];
    assert |a| > 1 && |b| > 1 ==> (a + x)[1] == a[1] && (b + y)[1] == b[1];
    assert |a| == |b| == 6 ==> (a + x)[4..6] == a[4..] && (b + y)[4..6] == b[4..];
    EscapeIsUnique(c, d);
    SameLength(a, b, x, y);
  }

  lemma {:induction false} BodyEnd(s: string, t: string, x: string, y: string)
    requires Body(s) + x == Body(t) + y
    ensures s == t && x == y
  {
    SameHead(Body(s), Body(t), x, y);
    if s == "" || t == "" {
      assert s == t;
      SameLength(Body(s), Body(t), x, y);
    } else {
      Regroup(Escape(s[0]), Body(s[1..]), x);
      Regroup(Escape(t[0]), Body(t[1..]), y);
      EscapeEnd(s[0], t[0], Body(s[1..]) + x, Body(t[1..]) + y);
      BodyEnd(s[1..], t[1..], x, y);
      assert s == [s[0]] + s[1..] && t == [t[0]] + t[1..];
    }
  }

  lemma {:induction false} Regroup(a: string, b: string, x: string)
    ensures (a + b) + x == a + (b + x)
  {
  }

  lemma {:induction false} QuotedEnd(s: string, t: string, x: string, y: string)
    requires Quoted(s) + x == Quoted(t) + y
    ensures s == t && x == y
  {
    Peel(Quoted(s), Quoted(t), x, y, '\"', Body(s), "", '\"', Body(t), "");
    assert "" + x == x && "" + y == y;
    BodyEnd(s, t, x, y);
  }

  /** The first character tells what kind of value follows. */
  function KindOf(c: char): nat {
    if c == 'n' then 0 else if c == 't' then 1 else if c == 'f' then 2
    else if c == '\"' then 3 else if c == '[' then 4 else if c == '{' then 5 else 6
  }

  lemma {:induction false} FirstCharacter(j: Json)
    ensures KindOf(Stringify(j)[0])
         == (match j
             case Null => 0
             case Bool(b) => if b then 1 else 2
             case Str(_) => 3
             case Arr(_) => 4
             case Obj(_) => 5
             case Num(_) => 6)
  {
  }

  /** A value's text says where it ends, and which value it is. */
  lemma {:induction false} ValueEnd(a: Json, b: Json, x: string, y: string)
    requires Ends(x) && Ends(y) && Stringify(a) + x == Stringify(b) + y
    ensures a == b && x == y
    decreases a, 0
  {
    var s, t := Stringify(a), Stringify(b);
    SameHead(s, t, x, y);
    FirstCharacter(a);
    FirstCharacter(b);
    match a
    case Null => SameLength(s, t, x, y);
    case Bool(v) => SameLength(s, t, x, y);
    case Num(n) => DecimalEnd(n, b.n, x, y);
    case Str(v) => QuotedEnd(v, b.s, x, y);
    case Arr(items) => ArrayEnd(items, b.items, x, y);
    case Obj(fields) => ObjectEnd(fields, b.fields, x, y);
  }

  lemma {:induction false} ArrayEnd(xs: seq<Json>, ys: seq<Json>, x: string, y: string)
    requires Stringify(Arr(xs)) + x == Stringify(Arr(ys)) + y
    ensures xs == ys && x == y
    decreases xs, 1
  {
    var s, t := Stringify(Arr(xs)), Stringify(Arr(ys));
    if xs == [] && ys == [] {
      SameLength(s, t, x, y);
    } else if xs == [] {
      FirstCharacter(ys[0]);
      Peel(s, t, x, y, '[', "]", "", '[', Stringify(ys[0]), Items(ys[1..]));
      SameHead("]", Stringify(ys[0]), "" + x, Items(ys[1..]) + y);
    } else if ys == [] {
      FirstCharacter(xs[0]);
      Peel(s, t, x, y, '[', Stringify(xs[0]), Items(xs[1..]), '[', "]", "");
      SameHead(Stringify(xs[0]), "]", Items(xs[1..]) + x, "" + y);
    } else {
      Peel(s, t, x, y, '[', Stringify(xs[0]), Items(xs[1..]), '[', Stringify(ys[0]), Items(ys[1..]));
      ItemAndRest(xs, ys, x, y);
    }
  }

  /** An item, and what follows it. */
  lemma {:induction false} ItemAndRest(xs: seq<Json>, ys: seq<Json>, x: string, y: string)
    requires xs != [] && ys != []
    requires Stringify(xs[0]) + (Items(xs[1..]) + x) == Stringify(ys[0]) + (Items(ys[1..]) + y)
    ensures xs == ys && x == y
    decreases xs, 0
  {
    ValueEnd(xs[0], ys[0], Items(xs[1..]) + x, Items(ys[1..]) + y);
    ItemsEnd(xs[1..], ys[1..], x, y);
    assert xs == [xs[0]] + xs[1..] && ys == [ys[0]] + ys[1..];
  }

  lemma {:induction false} ItemsEnd(xs: seq<Json>, ys: seq<Json>, x: string, y: string)
    requires Items(xs) + x == Items(ys) + y
    ensures xs == ys && x == y
    decreases xs, 1
  {
    SameHead(Items(xs), Items(ys), x, y);
    if xs == [] {
      SameLength(Items(xs), Items(ys), x, y);
    } else {
      Peel(Items(xs), Items(ys), x, y, ',', Stringify(xs[0]), Items(xs[1..]), ',', Stringify(ys[0]), Items(ys[1..]));
      ItemAndRest(xs, ys, x, y);
    }
  }

  lemma {:induction false} MemberEnd(f: Field, g: Field, x: string, y: string)
    requires Ends(x) && Ends(y) && Member(f) + x == Member(g) + y
    ensures f == g && x == y
    decreases f, 1
  {
    var a, b := ":" + Stringify(f.value), ":" + Stringify(g.value);
    Regroup(Quoted(f.key), a, x);
    Regroup(Quoted(g.key), b, y);
    QuotedEnd(f.key, g.key, a + x, b + y);
    Peel(a, b, x, y, ':', Stringify(f.value), "", ':', Stringify(g.value), "");
    assert "" + x == x && "" + y == y;
    ValueEnd(f.value, g.value, x, y);
  }

  lemma {:induction false} ObjectEnd(fs: seq<Field>, gs: seq<Field>, x: string, y: string)
    requires Stringify(Obj(fs)) + x == Stringify(Obj(gs)) + y
    ensures fs == gs && x == y
    decreases fs, 1
  {
    var s, t := Stringify(Obj(fs)), Stringify(Obj(gs));
    if fs == [] && gs == [] {
      SameLength(s, t, x, y);
    } else if fs == [] {
      Peel(s, t, x, y, '{', "}", "", '{', Member(gs[0]), Members(gs[1..]));
      SameHead("}", Member(gs[0]), "" + x, Members(gs[1..]) + y);
    } else if gs == [] {
      Peel(s, t, x, y, '{', Member(fs[0]), Members(fs[1..]), '{', "}", "");
      SameHead(Member(fs[0]), "}", Members(fs[1..]) + x, "" + y);
    } else {
      Peel(s, t, x, y, '{', Member(fs[0]), Members(fs[1..]), '{', Member(gs[0]), Members(gs[1..]));
      MemberAndRest(fs, gs, x, y);
    }
  }

  /** A member, and what follows it. */
  lemma {:induction false} MemberAndRest(fs: seq<Field>, gs: seq<Field>, x: string, y: string)
    requires fs != [] && gs != []
    requires Member(fs[0]) + (Members(fs[1..]) + x) == Member(gs[0]) + (Members(gs[1..]) + y)
    ensures fs == gs && x == y
    decreases fs, 0
  {
    MemberEnd(fs[0], gs[0], Members(fs[1..]) + x, Members(gs[1..]) + y);
    MembersEnd(fs[1..], gs[1..], x, y);
    assert fs == [fs[0]] + fs[1..] && gs == [gs[0]] + gs[1..];
  }

  lemma {:induction false} MembersEnd(fs: seq<Field>, gs: seq<Field>, x: string, y: string)
    requires Members(fs) + x == Members(gs) + y
    ensures fs == gs && x == y
    decreases fs, 1
  {
    SameHead(Members(fs), Members(gs), x, y);
    if fs == [] {
      SameLength(Members(fs), Members(gs), x, y);
    } else {
      Peel(Members(fs), Members(gs), x, y, ',', Member(fs[0]), Members(fs[1..]), ',', Member(gs[0]), Members(gs[1..]));
      MemberAndRest(fs, gs, x, y);
    }
  }

  /** Comparing texts is comparing values. */
  lemma {:induction false} StringifyIsInjective(a: Json, b: Json)
    ensures Stringify(a) == Stringify(b) <==> a == b
  {
    if Stringify(a) == Stringify(b) {
      assert Stringify(a) + "" == Stringify(b) + "";
      ValueEnd(a, b, "", "");
    }
  }

  /** Distinct integers have distinct texts, so `String(position)` is a key. */
  lemma {:induction false} DecimalIsInjective(n: int, m: int)
    ensures Decimal(n) == Decimal(m) <==> n == m
  {
    if Decimal(n) == Decimal(m) {
      assert Decimal(n) + "" == Decimal(m) + "";
      DecimalEnd(n, m, "", "");
    }
  }
}
