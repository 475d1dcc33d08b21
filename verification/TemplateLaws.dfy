/** What templates guarantee: which values matter to a config, what is left alone, and how paths compose. */
module TemplateLaws {
  import opened Base
  import opened Json
  import opened JsonText
  import opened Templates

  // ---------------------------------------------------------------- paths compose

  /** The segments of a path are those of its tail with the first character put in front. */
  function PutFirst(c: char, rest: seq<string>): seq<string>
    requires |rest| >= 1
  {
    if c == '.' then [""] + rest else [[c] + rest[0]] + rest[1..]
  }

  lemma {:induction false} PutFirstJoin(c: char, a: seq<string>, b: seq<string>)
    requires |a| >= 1
    ensures PutFirst(c, a + b) == PutFirst(c, a) + b
  {
    assert (a + b)[0] == a[0] && (a + b)[1..] == a[1..] + b;
  }

  lemma {:induction false} SegmentsJoin(p: string, q: string)
    ensures Segments(p + "." + q) == Segments(p) + Segments(q)
  {
    var s := p + "." + q;
    if p == "" {
      assert s[0] == '.' && s[1..] == q;
    } else {
      assert s[0] == p[0] && s[1..] == p[1..] + "." + q;
      SegmentsJoin(p[1..], q);
      PutFirstJoin(p[0], Segments(p[1..]), Segments(q));
      assert Segments(s) == PutFirst(s[0], Segments(s[1..])) && Segments(p) == PutFirst(p[0], Segments(p[1..]));
    }
  }

  lemma {:induction false} NonEmptyJoin(a: seq<string>, b: seq<string>)
    ensures NonEmpty(a + b) == NonEmpty(a) + NonEmpty(b)
  {
    if a == [] {
      assert a + b == b;
    } else {
      assert (a + b)[1..] == a[1..] + b;
      NonEmptyJoin(a[1..], b);
    }
  }

  lemma {:induction false} WalkJoin(cur: Option<Json>, a: seq<string>, b: seq<string>)
    ensures Walk(cur, a + b) == Walk(Walk(cur, a), b)
    decreases |a|
  {
    if a == [] {
      assert a + b == b;
    } else {
      assert (a + b)[1..] == a[1..] + b;
      WalkJoin(Property(cur, a[0]), a[1..], b);
    }
  }

  /** A joined path first finds the value of its front, and then looks up its back in that value. */
  lemma {:induction false} PathsCompose(ctx: Json, p: string, q: string)
    ensures Resolved(ctx, p + "." + q)
         == (match Resolved(ctx, p)
             case None => None
             case Some(v) => Resolved(v, q))
  {
    SegmentsJoin(p, q);
    NonEmptyJoin(Segments(p), Segments(q));
    WalkJoin(Some(ctx), Parts(p), Parts(q));
    WalkFromNothing(Parts(q));
  }

  /** Leading, trailing and doubled dots change nothing, and the empty path is the whole value. */
  lemma {:induction false} EmptyPartsAreIgnored(ctx: Json, p: string, q: string)
    ensures Resolved(ctx, "") == Some(ctx)
    ensures Resolved(ctx, "." + p) == Resolved(ctx, p) == Resolved(ctx, p + ".")
    ensures Resolved(ctx, p + ".." + q) == Resolved(ctx, p + "." + q)
  {
    NoPartsInEmpty();
    PathsCompose(ctx, "", p);
    assert "" + "." + p == "." + p;
    PathsCompose(ctx, p, "");
    assert p + "." + "" == p + ".";
    PathsCompose(ctx, p + ".", q);
    PathsCompose(ctx, p, q);
    assert p + "." + "." + q == p + ".." + q;
  }

  lemma {:induction false} NoPartsInEmpty()
    ensures Parts("") == [] && forall v :: Resolved(v, "") == Some(v)
  {
    assert NonEmpty([""]) == NonEmpty([""][1..]);
  }

  /** Paths never reach a key of the prototype chain, whatever the value is. */
  lemma {:induction false} DangerousIsUnreachable(cur: Option<Json>, parts: seq<string>, i: nat)
    requires i < |parts| && parts[i] in ["__proto__", "constructor", "prototype"]
    ensures Walk(cur, parts) == None
    decreases |parts|
  {
    if i == 0 {
      WalkFromNothing(parts[1..]);
    } else {
      DangerousIsUnreachable(Property(cur, parts[0]), parts[1..], i - 1);
    }
  }

  predicate Key(key: string) { key != "" && '.' !in key && !Dangerous(key) }

  lemma {:induction false} PartsOfKey(key: string)
    requires key != "" && '.' !in key
    ensures Segments(key) == [key] && Parts(key) == [key]
  {
    assert key[0] in key;
    if |key| == 1 {
      assert key[1..] == "" && key == [key[0]] + "";
    } else {
      assert forall c :: c in key[1..] ==> c in key;
      PartsOfKey(key[1..]);
      assert key == [key[0]] + key[1..];
    }
    assert NonEmpty([key]) == [key] + NonEmpty([]);
  }

  /** A path that starts with a plain key looks up that property first. */
  lemma {:induction false} KeyFirst(fields: seq<Field>, key: string, rest: string)
    requires Key(key)
    ensures Resolved(Obj(fields), key + "." + rest)
         == (match Lookup(fields, key)
             case None => None
             case Some(v) => Resolved(v, rest))
    ensures Resolved(Obj(fields), key) == Lookup(fields, key)
  {
    PathsCompose(Obj(fields), key, rest);
    PartsOfKey(key);
    var found := Property(Some(Obj(fields)), key);
    assert Walk(Some(Obj(fields)), [key]) == Walk(found, []);
  }

  lemma {:induction false} DecimalIsKey(n: nat)
    ensures Key(Decimal(n))
  {
    assert forall c :: c in Decimal(n) ==> IsDigit(c);
  }

  lemma {:induction false} DigitsAreAll(s: string)
    requires forall c :: c in s ==> IsDigit(c)
    ensures DigitPrefix(s) == s && TrimLeft(s) == s
  {
    if s != "" {
      assert s[0] in s && forall c :: c in s[1..] ==> c in s;
      DigitsAreAll(s[1..]);
      assert s == [s[0]] + s[1..];
    }
  }

  /** A decimal index selects an array element; past the end there is nothing. */
  lemma {:induction false} IndexSelects(items: seq<Json>, n: nat)
    ensures ParseInt(Decimal(n)) == Some(n)
    ensures Resolved(Arr(items), Decimal(n)) == if n < |items| then Some(items[n]) else None
  {
    DigitsAreAll(Decimal(n));
    DecimalIsKey(n);
    PartsOfKey(Decimal(n));
    var found := Property(Some(Arr(items)), Decimal(n));
    assert Walk(Some(Arr(items)), [Decimal(n)]) == Walk(found, []);
  }

  /** The white space and line terminators of sections 12.2 and 12.3 of ECMA-262. */
  const WHITE_SPACE := "\t\n\U{B}\U{C}\r \U{A0}\U{1680}\U{2000}\U{2001}\U{2002}\U{2003}\U{2004}\U{2005}\U{2006}" +
                       "\U{2007}\U{2008}\U{2009}\U{200A}\U{2028}\U{2029}\U{202F}\U{205F}\U{3000}\U{FEFF}"

  lemma {:induction false} WhiteExactly(c: char)
    ensures White(c) <==> c in WHITE_SPACE
  {
  }

  /** White space in front of digits and text behind them do not change what is read. */
  lemma {:induction false} NumberIsRead(front: string, digits: string, back: string)
    requires Blank(front) && digits != "" && (forall c :: c in digits ==> IsDigit(c)) && (back != "" ==> !IsDigit(back[0]))
    ensures ParseInt(front + (digits + back)) == Some(Value(digits))
  {
    var text := digits + back;
    assert text[0] == digits[0] && digits[0] in digits;
    TrimLeftStops(front, text);
    DigitsStop(digits, back);
  }

  /** A sign in front of the digits counts. */
  lemma {:induction false} SignIsRead(front: string, sign: char, digits: string, back: string)
    requires Blank(front) && digits != "" && (forall c :: c in digits ==> IsDigit(c)) && (back != "" ==> !IsDigit(back[0]))
    requires sign == '-' || sign == '+'
    ensures ParseInt(front + ([sign] + (digits + back))) == Some((if sign == '-' then -1 else 1) * Value(digits))
  {
    var text := [sign] + (digits + back);
    TrimLeftStops(front, text);
    DigitsStop(digits, back);
    assert text[1..] == digits + back;
  }

  lemma {:induction false} TrimLeftStops(front: string, text: string)
    requires Blank(front) && text != "" && !White(text[0])
    ensures TrimLeft(front + text) == text
  {
    if front == "" {
      assert front + text == text;
    } else {
      assert front[0] in front && forall c :: c in front[1..] ==> c in front;
      assert (front + text)[1..] == front[1..] + text;
      TrimLeftStops(front[1..], text);
    }
  }

  lemma {:induction false} DigitsStop(digits: string, back: string)
    requires (forall c :: c in digits ==> IsDigit(c)) && (back != "" ==> !IsDigit(back[0]))
    ensures DigitPrefix(digits + back) == digits
  {
    if digits == "" {
      assert digits + back == back;
    } else {
      assert digits[0] in digits && forall c :: c in digits[1..] ==> c in digits;
      assert (digits + back)[1..] == digits[1..] + back;
      DigitsStop(digits[1..], back);
      assert digits == [digits[0]] + digits[1..];
    }
  }

  /** Without a digit, behind white space and perhaps a sign, there is no number. */
  lemma {:induction false} NoNumber(front: string, back: string)
    requires Blank(front) && (back != "" ==> !White(back[0]) && !IsDigit(back[0]))
    requires |back| > 1 && (back[0] == '-' || back[0] == '+') ==> !IsDigit(back[1])
    ensures ParseInt(front + back) == None
  {
    if back == "" {
      AllTrimmed(front);
      assert front + back == front;
    } else {
      TrimLeftStops(front, back);
    }
  }

  lemma {:induction false} AllTrimmed(front: string)
    requires Blank(front)
    ensures TrimLeft(front) == ""
  {
    if front != "" {
      assert front[0] in front && forall c :: c in front[1..] ==> c in front;
      AllTrimmed(front[1..]);
    }
  }

  // ---------------------------------------------------------------- locality

  function HolePaths(pieces: seq<Piece>): set<string> {
    if pieces == [] then {}
    else (if pieces[0].Hole? then {pieces[0].path} else {}) + HolePaths(pieces[1..])
  }

  /** The paths that the strings of a config name. */
  function Named(value: Json): set<string>
    decreases value, 0
  {
    match value
    case Str(s) => if WholeHole(s).Some? then {WholeHole(s).value} else HolePaths(Scan(s))
    case Arr(items) => NamedItems(items)
    case Obj(fields) => NamedFields(fields)
    case _ => {}
  }

  function NamedItems(items: seq<Json>): set<string>
    decreases items, 0
  {
    if items == [] then {} else Named(items[0]) + NamedItems(items[1..])
  }

  function NamedFields(fields: seq<Field>): set<string>
    decreases fields, 0
  {
    if fields == [] then {}
    else (if Dangerous(fields[0].key) then {} else Named(fields[0].value)) + NamedFields(fields[1..])
  }

  ghost predicate AgreeOn(a: Json, b: Json, paths: set<string>) {
    forall p :: p in paths ==> Resolved(a, p) == Resolved(b, p)
  }

  lemma {:induction false} RenderIsLocal(pieces: seq<Piece>, a: Json, b: Json)
    requires AgreeOn(a, b, HolePaths(pieces))
    ensures Render(pieces, a) == Render(pieces, b)
  {
    if pieces != [] {
      RenderIsLocal(pieces[1..], a, b);
    }
  }

  /** Two contexts that agree on every path a config names resolve it to the same value. */
  lemma {:induction false} Locality(value: Json, a: Json, b: Json)
    requires AgreeOn(a, b, Named(value))
    ensures Filled(value, a) == Filled(value, b)
    decreases value, 0
  {
    match value
    case Str(s) =>
      if WholeHole(s).None? {
        RenderIsLocal(Scan(s), a, b);
      }
    case Arr(items) => ItemsLocal(items, a, b);
    case Obj(fields) => FieldsLocal(fields, a, b);
    case _ =>
  }

  lemma {:induction false} ItemsLocal(items: seq<Json>, a: Json, b: Json)
    requires AgreeOn(a, b, NamedItems(items))
    ensures FilledItems(items, a) == FilledItems(items, b)
    decreases items, 0
  {
    if items != [] {
      Locality(items[0], a, b);
      ItemsLocal(items[1..], a, b);
    }
  }

  lemma {:induction false} FieldsLocal(fields: seq<Field>, a: Json, b: Json)
    requires AgreeOn(a, b, NamedFields(fields))
    ensures FilledFields(fields, a) == FilledFields(fields, b)
    decreases fields, 0
  {
    if fields != [] {
      if !Dangerous(fields[0].key) {
        Locality(fields[0].value, a, b);
      }
      FieldsLocal(fields[1..], a, b);
    }
  }

  // ---------------------------------------------------------------- no rescanning

  predicate Braceless(s: string) { forall c :: c in s ==> c != '{' && c != '}' }

  lemma {:induction false} PlainOf(s: string, rest: string)
    requires Braceless(s)
    requires rest != "" && (rest[0] == '{' || rest[0] == '}')
    ensures Plain(s + rest) == |s|
  {
    if s == "" {
      assert s + rest == rest;
    } else {
      assert (s + rest)[1..] == s[1..] + rest && (s + rest)[0] == s[0] && s[0] in s;
      assert forall c :: c in s[1..] ==> c in s;
      PlainOf(s[1..], rest);
    }
  }

  lemma {:induction false} HoleAtStart(path: string, post: string)
    requires path != "" && Braceless(path)
    ensures HoleAt("{{" + path + "}}" + post) == Some(|path|)
  {
    var s := "{{" + path + "}}" + post;
    assert s[..2] == "{{" && s[2..] == path + ("}}" + post);
    PlainOf(path, "}}" + post);
    assert s[2 + |path|..] == "}}" + post;
  }

  /** Conversely, a placeholder at the start is braces around a path that has none. */
  lemma {:induction false} HoleShape(s: string)
    requires HoleAt(s).Some?
    ensures var n := HoleAt(s).value;
      && s == "{{" + s[2..2 + n] + "}}" + s[n + 4..]
      && n >= 1 && Braceless(s[2..2 + n])
  {
    var n := HoleAt(s).value;
    assert s[2..][..n] == s[2..2 + n];
    assert s[2 + n..][..2] == "}}" == s[2 + n..n + 4];
  }

  /** Trimming takes white space off both ends, and only that. */
  lemma {:induction false} TrimStrips(s: string) returns (front: string, back: string)
    ensures s == front + Trim(s) + back && Blank(front) && Blank(back)
    ensures var t := Trim(s); t != "" ==> !White(t[0]) && !White(t[|t| - 1])
  {
    front := LeftStrips(s);
    back := RightStrips(TrimLeft(s));
    Regroup(front, Trim(s), back);
    var l, t := TrimLeft(s), Trim(s);
    assert t != "" ==> l[0] == (t + back)[0] == t[0];
  }

  lemma {:induction false} LeftStrips(s: string) returns (front: string)
    ensures s == front + TrimLeft(s) && Blank(front)
    ensures TrimLeft(s) != "" ==> !White(TrimLeft(s)[0])
  {
    front := "";
    if s != "" && White(s[0]) {
      var rest := LeftStrips(s[1..]);
      front := [s[0]] + rest;
      assert s == [s[0]] + s[1..];
    }
  }

  lemma {:induction false} RightStrips(s: string) returns (back: string)
    ensures s == TrimRight(s) + back && Blank(back)
    ensures var t := TrimRight(s); t != "" ==> !White(t[|t| - 1])
  {
    back := "";
    if s != "" && White(s[|s| - 1]) {
      var rest := RightStrips(s[..|s| - 1]);
      back := rest + [s[|s| - 1]];
      assert s == s[..|s| - 1] + [s[|s| - 1]];
    }
  }

  lemma {:induction false} HoleParts(path: string, post: string)
    ensures var s := "{{" + path + "}}" + post;
      |s| == |path| + 4 + |post| && s[2..2 + |path|] == path && s[|path| + 4..] == post
  {
  }

  lemma {:induction false} ScanHole(path: string, post: string)
    requires path != "" && Braceless(path)
    ensures Scan("{{" + path + "}}" + post) == [Hole(Trim(path))] + Scan(post)
  {
    HoleAtStart(path, post);
    HoleParts(path, post);
  }

  /**
    The value of a placeholder is inserted as it is: the text behind it is read from the config, never
    from the inserted value, even when that value looks like a placeholder.
   */
  lemma {:induction false} InsertedVerbatim(pre: string, path: string, post: string, ctx: Json)
    requires '{' !in pre
    requires path != "" && Braceless(path)
    ensures Render(Scan(pre + ("{{" + path + "}}" + post)), ctx)
         == pre + Shown(Resolved(ctx, Trim(path))) + Render(Scan(post), ctx)
  {
    var rest := "{{" + path + "}}" + post;
    if pre == "" {
      assert pre + rest == rest;
      ScanHole(path, post);
      assert ([Hole(Trim(path))] + Scan(post))[1..] == Scan(post);
      assert "" + Shown(Resolved(ctx, Trim(path))) == Shown(Resolved(ctx, Trim(path)));
    } else {
      InsertedVerbatim(pre[1..], path, post, ctx);
      LiteralFirst(pre, rest, ctx);
      assert pre == [pre[0]] + pre[1..];
      Regroup([pre[0]], pre[1..] + Shown(Resolved(ctx, Trim(path))), Render(Scan(post), ctx));
      Regroup([pre[0]], pre[1..], Shown(Resolved(ctx, Trim(path))));
    }
  }

  lemma {:induction false} LiteralFirst(pre: string, rest: string, ctx: Json)
    requires pre != "" && pre[0] != '{'
    ensures Render(Scan(pre + rest), ctx) == [pre[0]] + Render(Scan(pre[1..] + rest), ctx)
  {
    var s := pre + rest;
    assert s[0] == pre[0] && s[1..] == pre[1..] + rest;
    assert |s| >= 2 ==> s[..2][0] == pre[0];
    var pieces := Scan(s);
    assert pieces[0] == Literal(s[0]) && pieces[1..] == Scan(s[1..]);
  }

  /** What a value is shown as inside text: nothing for null, a string as it is, anything else serialized. */
  lemma {:induction false} ShownExactly(value: Option<Json>)
    ensures value in [None, Some(Null), Some(Str(""))] <==> Shown(value) == ""
    ensures value.Some? && value.value.Str? ==> Shown(value) == value.value.s
    ensures value.Some? && !value.value.Null? && !value.value.Str? ==> Shown(value) == Stringify(value.value)
  {
  }

  /** A placeholder with nothing but white space around it; of a blank one the expression captures the last character. */
  predicate OnePlaceholder(s: string, front: string, inner: string, back: string, path: string) {
    && s == front + ("{{" + inner + "}}") + back && Blank(front) && Blank(back)
    && inner != "" && Braceless(inner)
    && path == if Blank(inner) then inner[|inner| - 1..] else Trim(inner)
  }

  lemma {:induction false} WholeHasShape(s: string) returns (front: string, inner: string, back: string)
    requires WholeHole(s).Some?
    ensures OnePlaceholder(s, front, inner, back, WholeHole(s).value)
  {
    var t := TrimLeft(s);
    front := LeftStrips(s);
    inner, back := PartsOfHole(t);
    WholeOfParts(s, t, inner, back);
    ThreeParts(front, t, "{{" + inner + "}}", back);
  }

  lemma {:induction false} PartsOfHole(t: string) returns (inner: string, back: string)
    requires HoleAt(t).Some?
    ensures var n := HoleAt(t).value;
      inner == t[2..2 + n] && back == t[n + 4..] && inner != "" && inner[|inner| - 1..] == t[1 + n..2 + n]
    ensures t == ("{{" + inner + "}}") + back && Braceless(inner)
  {
    HoleShape(t);
    var n := HoleAt(t).value;
    inner, back := t[2..2 + n], t[n + 4..];
    assert t[1 + n..2 + n] == inner[|inner| - 1..];
  }

  lemma {:induction false} WholeOfParts(s: string, t: string, inner: string, back: string)
    requires WholeHole(s).Some? && t == TrimLeft(s) && HoleAt(t).Some?
    requires var n := HoleAt(t).value;
      inner == t[2..2 + n] && back == t[n + 4..] && inner != "" && inner[|inner| - 1..] == t[1 + n..2 + n]
    ensures Blank(back) && WholeHole(s).value == if Blank(inner) then inner[|inner| - 1..] else Trim(inner)
  {
  }

  lemma {:induction false} ThreeParts(front: string, t: string, hole: string, back: string)
    requires t == hole + back
    ensures front + t == front + hole + back
  {
  }

  lemma {:induction false} ShapeIsWhole(s: string, front: string, inner: string, back: string, path: string)
    requires OnePlaceholder(s, front, inner, back, path)
    ensures WholeHole(s) == Some(path)
  {
    var t := "{{" + inner + "}}" + back;
    assert s == front + t && !White('{');
    TrimLeftStops(front, t);
    HoleAtStart(inner, back);
    HoleParts(inner, back);
    assert t[1 + |inner|..2 + |inner|] == inner[|inner| - 1..];
  }

  /** A string that is one placeholder, white space aside, becomes the value itself, with its type. */
  lemma {:induction false} WholeKeepsType(path: string, ctx: Json)
    requires !Blank(path) && Braceless(path)
    ensures Interpolate("{{" + path + "}}", ctx) == Resolved(ctx, Trim(path)).UnwrapOr(Null)
  {
    BlankIsNothing(path);
    var s := "{{" + path + "}}";
    assert s == "" + "{{" + path + "}}" + "";
    ShapeIsWhole(s, "", path, "", Trim(path));
  }

  lemma {:induction false} BlankIsNothing(path: string)
    requires !Blank(path)
    ensures path != ""
  {
  }

  /** Any other string becomes text: what stands between its placeholders, and what they show. */
  lemma {:induction false} OthersBecomeText(s: string, ctx: Json)
    requires forall front, inner, back, path :: !OnePlaceholder(s, front, inner, back, path)
    ensures Interpolate(s, ctx) == Str(Render(Scan(s), ctx))
  {
    if WholeHole(s).Some? {
      var front, inner, back := WholeHasShape(s);
    }
  }

  // ---------------------------------------------------------------- values

  /** Arrays are filled item by item. */
  lemma {:induction false} ItemIsFilled(items: seq<Json>, ctx: Json, i: nat)
    requires i < |items|
    ensures FilledItems(items, ctx)[i] == Filled(items[i], ctx)
  {
    if i > 0 {
      ItemIsFilled(items[1..], ctx, i - 1);
    }
  }

  /** Objects are filled property by property, without those of the prototype chain. */
  lemma {:induction false} PropertyIsFilled(fields: seq<Field>, ctx: Json, key: string)
    ensures Lookup(FilledFields(fields, ctx), key)
         == if key in ["__proto__", "constructor", "prototype"] then None
            else match Lookup(fields, key) case None => None case Some(v) => Some(Filled(v, ctx))
  {
    if fields != [] {
      PropertyIsFilled(fields[1..], ctx, key);
    }
  }

  // ---------------------------------------------------------------- fixed points

  predicate NoHole(pieces: seq<Piece>) { forall p :: p in pieces ==> p.Literal? }

  /** No placeholder in any string, and no key that is dropped. */
  predicate Inert(value: Json)
    decreases value, 0
  {
    match value
    case Str(s) => NoHole(Scan(s))
    case Arr(items) => InertItems(items)
    case Obj(fields) => InertFields(fields)
    case _ => true
  }

  predicate InertItems(items: seq<Json>)
    decreases items, 0
  {
    items == [] || (Inert(items[0]) && InertItems(items[1..]))
  }

  predicate InertFields(fields: seq<Field>)
    decreases fields, 0
  {
    fields == [] || (!Dangerous(fields[0].key) && Inert(fields[0].value) && InertFields(fields[1..]))
  }

  lemma {:induction false} LiteralsRender(s: string, ctx: Json)
    requires NoHole(Scan(s))
    ensures Render(Scan(s), ctx) == s
    decreases |s|
  {
    if s != "" {
      var pieces := Scan(s);
      assert pieces[0] in pieces;
      assert HoleAt(s).None?;
      assert pieces[1..] == Scan(s[1..]);
      assert forall p :: p in pieces[1..] ==> p in pieces;
      LiteralsRender(s[1..], ctx);
      assert s == [s[0]] + s[1..];
    }
  }

  /** A string with a whole placeholder has one for the scan as well. */
  lemma {:induction false} WholeIsScanned(s: string)
    requires HoleAt(TrimLeft(s)).Some?
    ensures !NoHole(Scan(s))
    decreases |s|
  {
    if HoleAt(s).Some? {
      assert Scan(s)[0] in Scan(s);
    } else {
      WholeIsScanned(s[1..]);
      assert Scan(s)[1..] == Scan(s[1..]);
      assert forall p :: p in Scan(s)[1..] ==> p in Scan(s);
    }
  }

  /** On the context `null` every placeholder vanishes, so the text gets shorter exactly when there is one. */
  lemma {:induction false} HolesVanish(s: string)
    ensures |Render(Scan(s), Null)| <= |s|
    ensures !NoHole(Scan(s)) ==> |Render(Scan(s), Null)| < |s|
    decreases |s|
  {
    if s != "" {
      var pieces := Scan(s);
      var step := if HoleAt(s).Some? then HoleAt(s).value + 4 else 1;
      assert pieces[1..] == Scan(s[step..]);
      HolesVanish(s[step..]);
      if HoleAt(s).Some? {
        NothingInNull(pieces[0].path);
      } else {
        assert forall p :: p in pieces ==> p == pieces[0] || p in pieces[1..];
      }
    }
  }

  lemma {:induction false} NothingInNull(path: string)
    ensures Shown(Resolved(Null, path)) == ""
  {
    if Parts(path) != [] {
      WalkFromNothing(Parts(path)[1..]);
    }
  }

  /** Inert configs are left alone in every context, and nothing else is. */
  lemma {:induction false} FixedPoints(value: Json, ctx: Json)
    ensures Inert(value) ==> Filled(value, ctx) == value
    ensures Filled(value, Null) == value ==> Inert(value)
    decreases value, 0
  {
    match value
    case Str(s) => StringFixedPoints(s, ctx);
    case Arr(items) => ItemsFixedPoints(items, ctx);
    case Obj(fields) => FieldsFixedPoints(fields, ctx);
    case _ =>
  }

  lemma {:induction false} StringFixedPoints(s: string, ctx: Json)
    ensures NoHole(Scan(s)) ==> Interpolate(s, ctx) == Str(s)
    ensures Interpolate(s, Null) == Str(s) ==> NoHole(Scan(s))
  {
    if WholeHole(s).Some? {
      WholeIsScanned(s);
      var parts := Parts(WholeHole(s).value);
      if parts != [] {
        WalkFromNothing(parts[1..]);
      }
    } else {
      HolesVanish(s);
      if NoHole(Scan(s)) {
        LiteralsRender(s, ctx);
      }
    }
  }

  lemma {:induction false} ItemsFixedPoints(items: seq<Json>, ctx: Json)
    ensures InertItems(items) ==> FilledItems(items, ctx) == items
    ensures FilledItems(items, Null) == items ==> InertItems(items)
    decreases items, 0
  {
    if items != [] {
      FixedPoints(items[0], ctx);
      ItemsFixedPoints(items[1..], ctx);
      assert items == [items[0]] + items[1..];
      if FilledItems(items, Null) == items {
        assert FilledItems(items, Null)[0] == items[0] && FilledItems(items, Null)[1..] == items[1..];
      }
    }
  }

  lemma {:induction false} FieldsFixedPoints(fields: seq<Field>, ctx: Json)
    ensures InertFields(fields) ==> FilledFields(fields, ctx) == fields
    ensures FilledFields(fields, Null) == fields ==> InertFields(fields)
    decreases fields, 0
  {
    if fields != [] {
      FixedPoints(fields[0].value, ctx);
      FieldsFixedPoints(fields[1..], ctx);
      assert fields == [fields[0]] + fields[1..];
      if FilledFields(fields, Null) == fields {
        assert !Dangerous(fields[0].key);
        assert FilledFields(fields, Null)[0] == fields[0] && FilledFields(fields, Null)[1..] == fields[1..];
      }
    }
  }
}
