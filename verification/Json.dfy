/** JSON values as the engine holds them in memory: objects keep their key order. */
module Json {

  /** Integers that an IEEE double holds exactly (section 21.1.2.6 of ECMA-262). */
  type SafeInt = n: int | -0x1F_FFFF_FFFF_FFFF <= n <= 0x1F_FFFF_FFFF_FFFF

  datatype Json =
    | Null
    | Bool(b: bool)
    | Num(n: SafeInt)
    | Str(s: string)
    | Arr(items: seq<Json>)
    | Obj(fields: seq<Field>)

  datatype Field = Field(key: string, value: Json)
}
