/**
  The grammar of RFC 8259, without white space, read by a recursive descent: whatever the engine
  serializes is a text of that grammar and is read back as the value it was.
 */
module JsonGrammar {
  import opened Base
  import opened Json
  import opened JsonText

  // ---------------------------------------------------------------- numbers (section 6)

  function DigitRun(s: string): (n: nat)
    ensures n <= |s| && AllDigits(s[..n])
    ensures n < |s| ==> !IsDigit(s[n])
  {
    if s == "" || !IsDigit(s[0]) then 0
    else
      var n := 1 + DigitRun(s[1..]);
      assert forall i :: 0 < i < n ==> s[..n][i] == s[1..][..n - 1][i - 1];
      n
  }

  function Numeral(digits: string): int
    requires AllDigits(digits)
  {
    assert forall c :: c in digits ==> IsDigit(c);
    Value(digits)
  }

  /** An integer without a leading zero, and what follows it. */
  function ReadNumber(s: string): (r: Option<(Json, string)>)
    ensures r.Some? ==> |r.value.1| < |s|
  {
    var negative := s != "" && s[0] == '-';
    var digits := if negative then s[1..] else s;
    var n := DigitRun(digits);
    if n == 0 || (n > 1 && digits[0] == '0') then None
    else
      var value := if negative then -Numeral(digits[..n]) else Numeral(digits[..n]);
      if -0x1F_FFFF_FFFF_FFFF <= value <= 0x1F_FFFF_FFFF_FFFF then Some((Num(value), digits[n..])) else None
  }

  // ---------------------------------------------------------------- strings (section 7)

  function HexValue(c: char): Option<nat> {
    if IsDigit(c) then Some(DigitValue(c))
    else if 'a' <= c <= 'f' then Some(10 + (c as int - 'a' as int))
    else if 'A' <= c <= 'F' then Some(10 + (c as int - 'A' as int))
    else None
  }

  /** The character that the escape behind a backslash stands for, and how long the escape is. */
  function Unescaped(s: string): (r: Option<(char, nat)>)
    ensures r.Some? ==> 1 <= r.value.1 <= |s|
  {
    if s == "" then None
    else if s[0] == '\"' || s[0] == '\\' || s[0] == '/' then Some((s[0], 1))
    else if s[0] == 'b' then Some((8 as char, 1))
    else if s[0] == 'f' then Some((12 as char, 1))
    else if s[0] == 'n' then Some((10 as char, 1))
    else if s[0] == 'r' then Some((13 as char, 1))
    else if s[0] == 't' then Some((9 as char, 1))
    else if s[0] == 'u' && |s| >= 5 then
      var a, b, c, d := HexValue(s[1]), HexValue(s[2]), HexValue(s[3]), HexValue(s[4]);
      if a.None? || b.None? || c.None? || d.None? then None
      else
        var n := 4096 * a.value + 256 * b.value + 16 * c.value + d.value;
        if 0 <= n < 0xD800 || 0xE000 <= n < 0x1_0000 then Some((n as char, 5)) else None
    else None
  }

  /** The characters of a string up to its closing quote, and what follows. */
  function ReadBody(s: string): (r: Option<(string, string)>)
    ensures r.Some? ==> |r.value.1| < |s|
    decreases |s|
  {
    if s == "" || s[0] < ' ' then None
    else if s[0] == '\"' then Some(("", s[1..]))
    else
      var one := if s[0] == '\\' then Unescaped(s[1..]) else Some((s[0], 0));
      if one.None? then None
      else
        match ReadBody(s[1 + one.value.1..])
        case None => None
        case Some(rest) => Some(([one.value.0] + rest.0, rest.1))
  }

  // ---------------------------------------------------------------- values (sections 3 to 5)

  function ReadWord(s: string, word: string, value: Json): (r: Option<(Json, string)>)
    requires word != ""
    ensures r.Some? ==> |r.value.1| < |s|
  {
    if word <= s then Some((value, s[|word|..])) else None
  }

  function ReadValue(s: string): (r: Option<(Json, string)>)
    ensures r.Some? ==> |r.value.1| < |s|
    decreases |s|, 0
  {
    if s == "" then None
    else if s[0] == 'n' then ReadWord(s, "null", Null)
    else if s[0] == 't' then ReadWord(s, "true", Bool(true))
    else if s[0] == 'f' then ReadWord(s, "false", Bool(false))
    else if s[0] == '\"' then
      (match ReadBody(s[1..])
       case None => None
       case Some(r) => Some((Str(r.0), r.1)))
    else if s[0] == '[' then
      if |s| > 1 && s[1] == ']' then Some((Arr([]), s[2..]))
      else
        (match ReadItems(s[1..])
         case None => None
         case Some(r) => Some((Arr(r.0), r.1)))
    else if s[0] == '{' then
      if |s| > 1 && s[1] == '}' then Some((Obj([]), s[2..]))
      else
        (match ReadMembers(s[1..])
         case None => None
         case Some(r) => Some((Obj(r.0), r.1)))
    else ReadNumber(s)
  }

  /** One value and, behind a comma, further ones, up to the closing bracket. */
  function ReadItems(s: string): (r: Option<(seq<Json>, string)>)
    ensures r.Some? ==> |r.value.1| < |s|
    decreases |s|, 1
  {
    match ReadValue(s)
    case None => None
    case Some(first) =>
      if first.1 == "" then None
      else if first.1[0] == ']' then Some(([first.0], first.1[1..]))
      else if first.1[0] == ',' then
        match ReadItems(first.1[1..])
        case None => None
        case Some(rest) => Some(([first.0] + rest.0, rest.1))
      else None
  }

  function ReadMember(s: string): (r: Option<(Field, string)>)
    ensures r.Some? ==> |r.value.1| < |s|
    decreases |s|, 1
  {
    if s == "" || s[0] != '\"' then None
    else
      match ReadBody(s[1..])
      case None => None
      case Some(key) =>
        if key.1 == "" || key.1[0] != ':' then None
        else
          match ReadValue(key.1[1..])
          case None => None
          case Some(v) => Some((Field(key.0, v.0), v.1))
  }

  function ReadMembers(s: string): (r: Option<(seq<Field>, string)>)
    ensures r.Some? ==> |r.value.1| < |s|
    decreases |s|, 2
  {
    match ReadMember(s)
    case None => None
    case Some(first) =>
      if first.1 == "" then None
      else if first.1[0] == '}' then Some(([first.0], first.1[1..]))
      else if first.1[0] == ',' then
        match ReadMembers(first.1[1..])
        case None => None
        case Some(rest) => Some(([first.0] + rest.0, rest.1))
      else None
  }

  /** A text of one value and nothing else. */
  function Parse(s: string): Option<Json> {
    match ReadValue(s)
    case None => None
    case Some(r) => if r.1 == "" then Some(r.0) else None
  }

  // ---------------------------------------------------------------- what was serialized is read back

  lemma {:induction false} RunOfDigits(digits: string, x: string)
    requires AllDigits(digits) && (x != "" ==> !IsDigit(x[0]))
    ensures DigitRun(digits + x) == |digits|
  {
    if digits == "" {
      assert digits + x == x;
    } else {
      assert (digits + x)[1..] == digits[1..] + x;
      RunOfDigits(digits[1..], x);
    }
  }

  lemma {:induction false} NoLeadingZero(n: nat)
    ensures |Digits(n)| > 1 ==> Digits(n)[0] != '0'
    ensures n > 0 ==> Digits(n)[0] != '0'
  {
    if n >= 10 {
      NoLeadingZero(n / 10);
    }
  }

  lemma {:induction false} DigitsRead(n: nat, x: string)
    requires Ends(x)
    ensures var s := Digits(n) + x; var k := DigitRun(s);
      k == |Digits(n)| && s[..k] == Digits(n) && s[k..] == x && Numeral(s[..k]) == n
  {
    assert AllDigits(Digits(n));
    RunOfDigits(Digits(n), x);
  }

  lemma {:induction false} NatReads(n: nat, x: string)
    requires Ends(x) && n <= 0x1F_FFFF_FFFF_FFFF
    ensures ReadNumber(Digits(n) + x) == Some((Num(n), x))
  {
    var s := Digits(n) + x;
    DigitsRead(n, x);
    NoLeadingZero(n);
    assert IsDigit(s[0]) && s[0] == Digits(n)[0];
  }

  lemma {:induction false} NegativeReads(n: int, x: string)
    requires Ends(x) && 0 < n <= 0x1F_FFFF_FFFF_FFFF
    ensures ReadNumber("-" + Digits(n) + x) == Some((Num(-n), x))
  {
    var s, digits := "-" + Digits(n) + x, Digits(n) + x;
    DigitsRead(n, x);
    NoLeadingZero(n);
    assert s[0] == '-' && s[1..] == digits && digits[0] == Digits(n)[0];
  }

  lemma {:induction false} NumberReads(n: SafeInt, x: string)
    requires Ends(x)
    ensures ReadNumber(Decimal(n) + x) == Some((Num(n), x))
  {
    if n < 0 {
      NegativeReads(-n, x);
    } else {
      NatReads(n, x);
    }
  }

  lemma {:induction false} EscapeReads(c: char, x: string)
    ensures Escape(c)[0] >= ' ' && Escape(c)[0] != '\"'
    ensures Escape(c)[0] == '\\' ==>
      Unescaped(Escape(c)[1..] + x) == Some((c, |Escape(c)| - 1)) && (Escape(c)[1..] + x)[|Escape(c)| - 1..] == x
    ensures Escape(c)[0] != '\\' ==> Escape(c) == [c]
  {
    var rest := Escape(c)[1..] + x;
    if |Escape(c)| == 6 {
      assert rest[0] == 'u' && rest[1] == '0' && rest[2] == '0';
      assert rest[3] == Hex(c as int / 16) && rest[4] == Hex(c as int % 16);
      HexReads(c as int / 16);
      HexReads(c as int % 16);
    }
  }

  lemma {:induction false} HexReads(d: nat)
    requires d < 16
    ensures HexValue(Hex(d)) == Some(d)
  {
  }

  lemma {:induction false} BodyReads(s: string, x: string)
    ensures ReadBody(Body(s) + x) == Some((s, x))
    decreases |s|
  {
    if s == "" {
      assert (Body(s) + x)[1..] == x;
    } else {
      var rest := Body(s[1..]) + x;
      BodyReads(s[1..], x);
      EscapeReads(s[0], rest);
      Regroup(Escape(s[0]), Body(s[1..]), x);
      EscapedBody(s[0], rest, s[1..], x);
      assert s == [s[0]] + s[1..];
    }
  }

  lemma {:induction false} EscapedBody(c: char, rest: string, s: string, x: string)
    requires ReadBody(rest) == Some((s, x))
    ensures ReadBody(Escape(c) + rest) == Some(([c] + s, x))
  {
    EscapeReads(c, rest);
    var all := Escape(c) + rest;
    assert all[0] == Escape(c)[0] && all[1..] == Escape(c)[1..] + rest;
    if Escape(c)[0] == '\\' {
      assert all[1 + (|Escape(c)| - 1)..] == rest;
    } else {
      assert all[1..] == rest;
    }
  }

  lemma {:induction false} WordReads(j: Json, x: string)
    requires j.Null? || j.Bool?
    ensures ReadValue(Stringify(j) + x) == Some((j, x))
  {
    var s, word := Stringify(j) + x, Stringify(j);
    assert s[|word|..] == x && word <= s && s[0] == word[0];
  }

  lemma {:induction false} StringReads(t: string, x: string)
    ensures ReadValue(Stringify(Str(t)) + x) == Some((Str(t), x))
  {
    BodyReads(t, x);
    OpenString(Body(t) + x, t, x);
    assert Quoted(t) + x == "\"" + (Body(t) + x);
  }

  lemma {:induction false} OpenString(r: string, t: string, x: string)
    requires ReadBody(r) == Some((t, x))
    ensures ReadValue("\"" + r) == Some((Str(t), x))
  {
    assert ("\"" + r)[1..] == r;
  }

  /** Any value followed by what can follow it is read as that value and what follows. */
  lemma {:induction false} ValueReads(j: Json, x: string)
    requires Ends(x)
    ensures ReadValue(Stringify(j) + x) == Some((j, x))
    decreases j, 0
  {
    match j
    case Null => WordReads(j, x);
    case Bool(_) => WordReads(j, x);
    case Num(n) =>
      FirstCharacter(j);
      assert (Decimal(n) + x)[0] == Decimal(n)[0];
      NumberReads(n, x);
    case Str(t) => StringReads(t, x);
    case Arr(items) => ArrayReads(items, x);
    case Obj(fields) => ObjectReads(fields, x);
  }

  lemma {:induction false} OpenArray(r: string, items: seq<Json>, x: string)
    requires r != "" && r[0] != ']' && ReadItems(r) == Some((items, x))
    ensures ReadValue("[" + r) == Some((Arr(items), x))
  {
    assert ("[" + r)[1..] == r;
  }

  lemma {:induction false} LastItem(s: string, item: Json, x: string)
    requires ReadValue(s) == Some((item, "]" + x))
    ensures ReadItems(s) == Some(([item], x))
  {
    assert ("]" + x)[1..] == x;
  }

  lemma {:induction false} FurtherItems(s: string, item: Json, more: string, items: seq<Json>, x: string)
    requires ReadValue(s) == Some((item, "," + more)) && ReadItems(more) == Some((items, x))
    ensures ReadItems(s) == Some(([item] + items, x))
  {
    assert ("," + more)[1..] == more;
  }

  lemma {:induction false} ArrayReads(items: seq<Json>, x: string)
    ensures ReadValue(Stringify(Arr(items)) + x) == Some((Arr(items), x))
    decreases items, 1
  {
    if items == [] {
      assert ("[]" + x)[2..] == x;
    } else {
      var r := Stringify(items[0]) + Items(items[1..]) + x;
      ItemsRead(items, x);
      FirstCharacter(items[0]);
      assert r[0] == Stringify(items[0])[0];
      OpenArray(r, items, x);
      assert Stringify(Arr(items)) + x == "[" + r;
    }
  }

  lemma {:induction false} ItemsText(items: seq<Json>, x: string)
    requires items != []
    ensures Items(items) + x == "," + (Stringify(items[0]) + Items(items[1..]) + x)
  {
  }

  lemma {:induction false} MemberText(f: Field, x: string)
    ensures Member(f) + x == "\"" + (Body(f.key) + (":" + (Stringify(f.value) + x)))
  {
  }

  lemma {:induction false} MembersText(fields: seq<Field>, x: string)
    requires fields != []
    ensures Members(fields) + x == "," + (Member(fields[0]) + Members(fields[1..]) + x)
  {
  }

  /** The items of an array behind its bracket. */
  lemma {:induction false} ItemsRead(items: seq<Json>, x: string)
    requires items != []
    ensures ReadItems(Stringify(items[0]) + Items(items[1..]) + x) == Some((items, x))
    decreases items, 0
  {
    var s, rest := Stringify(items[0]) + Items(items[1..]) + x, Items(items[1..]) + x;
    Regroup(Stringify(items[0]), Items(items[1..]), x);
    ValueReads(items[0], rest);
    if |items| == 1 {
      LastItem(s, items[0], x);
      assert items == [items[0]];
    } else {
      var back := items[1..];
      var more := Stringify(back[0]) + Items(back[1..]) + x;
      ItemsRead(back, x);
      ItemsText(back, x);
      FurtherItems(s, items[0], more, back, x);
      assert items == [items[0]] + items[1..];
    }
  }

  lemma {:induction false} OneMember(body: string, key: string, text: string, v: Json, x: string)
    requires ReadBody(body) == Some((key, ":" + text)) && ReadValue(text) == Some((v, x))
    ensures ReadMember("\"" + body) == Some((Field(key, v), x))
  {
    assert ("\"" + body)[1..] == body && (":" + text)[1..] == text;
  }

  lemma {:induction false} MemberReads(f: Field, x: string)
    requires Ends(x)
    ensures ReadMember(Member(f) + x) == Some((f, x))
    decreases f, 1
  {
    var text := Stringify(f.value) + x;
    BodyReads(f.key, ":" + text);
    ValueReads(f.value, x);
    OneMember(Body(f.key) + (":" + text), f.key, text, f.value, x);
    MemberText(f, x);
  }

  lemma {:induction false} OpenObject(r: string, fields: seq<Field>, x: string)
    requires r != "" && r[0] != '}' && ReadMembers(r) == Some((fields, x))
    ensures ReadValue("{" + r) == Some((Obj(fields), x))
  {
    assert ("{" + r)[1..] == r;
  }

  lemma {:induction false} LastMember(s: string, f: Field, x: string)
    requires ReadMember(s) == Some((f, "}" + x))
    ensures ReadMembers(s) == Some(([f], x))
  {
    assert ("}" + x)[1..] == x;
  }

  lemma {:induction false} FurtherMembers(s: string, f: Field, more: string, fields: seq<Field>, x: string)
    requires ReadMember(s) == Some((f, "," + more)) && ReadMembers(more) == Some((fields, x))
    ensures ReadMembers(s) == Some(([f] + fields, x))
  {
    assert ("," + more)[1..] == more;
  }

  lemma {:induction false} ObjectReads(fields: seq<Field>, x: string)
    ensures ReadValue(Stringify(Obj(fields)) + x) == Some((Obj(fields), x))
    decreases fields, 1
  {
    if fields == [] {
      assert ("{}" + x)[2..] == x;
    } else {
      var r := Member(fields[0]) + Members(fields[1..]) + x;
      MembersRead(fields, x);
      assert r[0] == Member(fields[0])[0];
      OpenObject(r, fields, x);
      assert Stringify(Obj(fields)) + x == "{" + r;
    }
  }

  lemma {:induction false} MembersRead(fields: seq<Field>, x: string)
    requires fields != []
    ensures ReadMembers(Member(fields[0]) + Members(fields[1..]) + x) == Some((fields, x))
    decreases fields, 0
  {
    var s, rest := Member(fields[0]) + Members(fields[1..]) + x, Members(fields[1..]) + x;
    Regroup(Member(fields[0]), Members(fields[1..]), x);
    MemberReads(fields[0], rest);
    if |fields| == 1 {
      LastMember(s, fields[0], x);
      assert fields == [fields[0]];
    } else {
      var back := fields[1..];
      var more := Member(back[0]) + Members(back[1..]) + x;
      MembersRead(back, x);
      MembersText(back, x);
      FurtherMembers(s, fields[0], more, back, x);
      assert fields == [fields[0]] + fields[1..];
    }
  }

  /** Parsing what was serialized gives the value back. */
  lemma {:induction false} ParseStringify(j: Json)
    ensures Parse(Stringify(j)) == Some(j)
  {
    ValueReads(j, "");
    assert Stringify(j) + "" == Stringify(j);
  }
}
