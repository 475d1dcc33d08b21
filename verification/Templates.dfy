/**
  Run context lookup and template interpolation: packages/engine/src/core/context.ts. The two regular
  expressions are written out as what they match, blank placeholders included.
 */
module Templates {
  import opened Base
  import opened Json
  import opened JsonText

  // ---------------------------------------------------------------- text

  /** White space in the sense of `\s` and `String.prototype.trim`. */
  predicate White(c: char) {
    var n := c as int;
    || 9 <= n <= 13 || n == 0x20 || n == 0xA0 || n == 0x1680 || 0x2000 <= n <= 0x200A
    || n == 0x2028 || n == 0x2029 || n == 0x202F || n == 0x205F || n == 0x3000 || n == 0xFEFF
  }

  predicate Blank(s: string) { forall c :: c in s ==> White(c) }

  function TrimLeft(s: string): (r: string)
    ensures |r| <= |s|
  {
    if s != "" && White(s[0]) then TrimLeft(s[1..]) else s
  }

  function TrimRight(s: string): (r: string)
    ensures |r| <= |s|
  {
    if s != "" && White(s[|s| - 1]) then TrimRight(s[..|s| - 1]) else s
  }

  function Trim(s: string): string { TrimRight(TrimLeft(s)) }

  // ---------------------------------------------------------------- paths

  /** `path.split('.')`. */
  function Segments(path: string): (parts: seq<string>)
    ensures |parts| >= 1
  {
    if path == "" then [""]
    else
      var rest := Segments(path[1..]);
      if path[0] == '.' then [""] + rest else [[path[0]] + rest[0]] + rest[1..]
  }

  function NonEmpty(parts: seq<string>): seq<string> {
    if parts == [] then []
    else (if parts[0] == "" then [] else [parts[0]]) + NonEmpty(parts[1..])
  }

  function Parts(path: string): seq<string> { NonEmpty(Segments(path)) }

  predicate Dangerous(key: string) {
    key == "__proto__" || key == "constructor" || key == "prototype"
  }

  function DigitPrefix(s: string): (r: string)
    ensures forall c :: c in r ==> IsDigit(c)
  {
    if s != "" && IsDigit(s[0]) then [s[0]] + DigitPrefix(s[1..]) else ""
  }

  /** `Number.parseInt(part, 10)`, or nothing for NaN. */
  function ParseInt(part: string): Option<int> {
    var s := TrimLeft(part);
    var signed := s != "" && (s[0] == '-' || s[0] == '+');
    var digits := DigitPrefix(if signed then s[1..] else s);
    var n: int := Value(digits);
    if digits == "" then None else Some(if signed && s[0] == '-' then -n else n)
  }

  /** An own property of an object. */
  function Lookup(fields: seq<Field>, key: string): Option<Json> {
    if fields == [] then None
    else if fields[0].key == key then Some(fields[0].value)
    else Lookup(fields[1..], key)
  }

  /** One part of a path; nothing stands for `undefined`. */
  function Property(cur: Option<Json>, part: string): Option<Json> {
    if Dangerous(part) then None
    else
      match cur
      case Some(Arr(items)) =>
        var idx := ParseInt(part);
        if idx.Some? && 0 <= idx.value < |items| then Some(items[idx.value]) else None
      case Some(Obj(fields)) => Lookup(fields, part)
      case _ => None
  }

  function Walk(cur: Option<Json>, parts: seq<string>): Option<Json>
    decreases |parts|
  {
    if parts == [] then cur else Walk(Property(cur, parts[0]), parts[1..])
  }

  function Resolved(ctx: Json, path: string): Option<Json> { Walk(Some(ctx), Parts(path)) }

  lemma {:induction false} WalkFromNothing(parts: seq<string>)
    ensures Walk(None, parts) == None
  {
    if parts != [] {
      WalkFromNothing(parts[1..]);
    }
  }

  /** `resolvePath`: a loop that leaves as soon as nothing can be found. */
  method ResolvePath(ctx: Json, path: string) returns (result: Option<Json>)
    ensures result == Resolved(ctx, path)
  {
    var parts := Parts(path);
    var cur := Some(ctx);
    for i := 0 to |parts|
      invariant Walk(Some(ctx), parts) == Walk(cur, parts[i..])
    {
      WalkFromNothing(parts[i + 1..]);
      var part := parts[i];
      if Dangerous(part) || cur.None? || cur.value.Null? {
        return None;
      }
      if cur.value.Arr? {
        var idx := ParseInt(part);
        if idx.None? {
          return None;
        }
        cur := if 0 <= idx.value < |cur.value.items| then Some(cur.value.items[idx.value]) else None;
        continue;
      }
      if !cur.value.Obj? || Lookup(cur.value.fields, part).None? {
        return None;
      }
      cur := Lookup(cur.value.fields, part);
    }
    result := cur;
  }

  // ---------------------------------------------------------------- strings

  /** The length of the longest start of `s` without braces. */
  function Plain(s: string): (n: nat)
    ensures n <= |s|
    ensures forall c :: c in s[..n] ==> c != '{' && c != '}'
    ensures n < |s| ==> s[n] == '{' || s[n] == '}'
  {
    if s == "" || s[0] == '{' || s[0] == '}' then 0
    else
      var n := 1 + Plain(s[1..]);
      assert s[..n] == [s[0]] + s[1..][..n - 1];
      n
  }

  /** `{{`, at least one character other than a brace, and `}}`, at the start of `s`: how many such characters. */
  function HoleAt(s: string): (n: Option<nat>)
    ensures n.Some? ==> 1 <= n.value <= |s| - 4
  {
    if |s| < 2 || s[..2] != "{{" then None
    else
      var n := Plain(s[2..]);
      if n > 0 && "}}" <= s[2 + n..] then Some(n) else None
  }

  datatype Piece = Literal(c: char) | Hole(path: string)

  /** The matches of INLINE_TEMPLATE in order, and the characters between them. */
  function Scan(s: string): seq<Piece>
    decreases |s|
  {
    if s == "" then []
    else
      match HoleAt(s)
      case Some(n) => [Hole(Trim(s[2..2 + n]))] + Scan(s[n + 4..])
      case None => [Literal(s[0])] + Scan(s[1..])
  }

  /** The path FULL_TEMPLATE captures: of a blank placeholder its last character, as the regex backtracks. */
  function WholeHole(s: string): Option<string> {
    var t := TrimLeft(s);
    match HoleAt(t)
    case Some(n) =>
      if !Blank(t[n + 4..]) then None
      else if Blank(t[2..2 + n]) then Some(t[1 + n..2 + n])
      else Some(Trim(t[2..2 + n]))
    case None => None
  }

  function Shown(value: Option<Json>): string {
    match value
    case None => ""
    case Some(Null) => ""
    case Some(Str(s)) => s
    case Some(v) => Stringify(v)
  }

  function Render(pieces: seq<Piece>, ctx: Json): string {
    if pieces == [] then ""
    else
      (match pieces[0] case Literal(c) => [c] case Hole(path) => Shown(Resolved(ctx, path)))
      + Render(pieces[1..], ctx)
  }

  /** `interpolateString`. */
  function Interpolate(s: string, ctx: Json): Json {
    match WholeHole(s)
    case Some(path) => Resolved(ctx, path).UnwrapOr(Null)
    case None => Str(Render(Scan(s), ctx))
  }

  // ---------------------------------------------------------------- values

  function Filled(value: Json, ctx: Json): Json
    decreases value, 0
  {
    match value
    case Str(s) => Interpolate(s, ctx)
    case Arr(items) => Arr(FilledItems(items, ctx))
    case Obj(fields) => Obj(FilledFields(fields, ctx))
    case other => other
  }

  function FilledItems(items: seq<Json>, ctx: Json): (r: seq<Json>)
    ensures |r| == |items|
    decreases items, 0
  {
    if items == [] then [] else [Filled(items[0], ctx)] + FilledItems(items[1..], ctx)
  }

  function FilledFields(fields: seq<Field>, ctx: Json): (r: seq<Field>)
    ensures |r| <= |fields|
    decreases fields, 0
  {
    if fields == [] then []
    else if Dangerous(fields[0].key) then FilledFields(fields[1..], ctx)
    else [Field(fields[0].key, Filled(fields[0].value, ctx))] + FilledFields(fields[1..], ctx)
  }

  /** `resolveTemplates`. */
  method ResolveTemplates(value: Json, ctx: Json) returns (result: Json)
    ensures result == Filled(value, ctx)
    decreases value, 0
  {
    match value
    case Str(s) => result := Interpolate(s, ctx);
    case Arr(items) =>
      var done := ResolveItems(items, ctx);
      result := Arr(done);
    case Obj(fields) =>
      var out := ResolveFields(fields, ctx);
      result := Obj(out);
    case other => result := value;
  }

  method ResolveItems(items: seq<Json>, ctx: Json) returns (done: seq<Json>)
    ensures done == FilledItems(items, ctx)
    decreases items, 0
  {
    done := [];
    for i := 0 to |items|
      invariant FilledItems(items, ctx) == done + FilledItems(items[i..], ctx)
    {
      assert items[i..] == [items[i]] + items[i + 1..] && items[i..][1..] == items[i + 1..];
      assert FilledItems(items[i..], ctx) == [Filled(items[i], ctx)] + FilledItems(items[i + 1..], ctx);
      var item := ResolveTemplates(items[i], ctx);
      done := done + [item];
    }
  }

  /** Objects are filled into a new one, key by key; dangerous keys are left out. */
  method ResolveFields(fields: seq<Field>, ctx: Json) returns (out: seq<Field>)
    ensures out == FilledFields(fields, ctx)
    decreases fields, 0
  {
    out := [];
    for i := 0 to |fields|
      invariant FilledFields(fields, ctx) == out + FilledFields(fields[i..], ctx)
    {
      assert fields[i..] == [fields[i]] + fields[i + 1..] && fields[i..][1..] == fields[i + 1..];
      if Dangerous(fields[i].key) {
        continue;
      }
      var v := ResolveTemplates(fields[i].value, ctx);
      out := out + [Field(fields[i].key, v)];
    }
  }
}
