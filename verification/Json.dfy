/** JSON values (RFC 8259) and a trusted pair of parser and printer. */
module Json {
  import opened Wrappers

  /** A number as it is written: mantissa times ten to the exponent. */
  datatype Number = Number(mantissa: int, exponent: int)

  datatype Json =
    | Null
    | Bool(b: bool)
    | Num(n: Number)
    | Str(s: string)
    | Arr(items: seq<Json>)
    | Obj(fields: map<string, Json>)

  /** The parser, the printer, and the debug format of the host language. */
  datatype Codec = Codec(parse: string -> Option<Json>, show: Json -> string, format: Json -> string)

  function Text(c: Codec, v: Json): string {
    c.show(v)
  }

  // The white space of the Unicode standard.
  predicate IsSpace(ch: char) {
    || '\t' <= ch <= '\r' || ch == ' ' || ch == '\U{85}' || ch == '\U{A0}' || ch == '\U{1680}'
    || '\U{2000}' <= ch <= '\U{200A}' || ch == '\U{2028}' || ch == '\U{2029}' || ch == '\U{202F}' || ch == '\U{205F}'
    || ch == '\U{3000}'
  }

  /** Not empty, and neither begins nor ends with white space. */
  predicate Tight(s: string) {
    s != [] && !IsSpace(s[0]) && !IsSpace(s[|s| - 1])
  }

  /** Printing and parsing again gives the value back; a printed value is one tight line; `[DONE]` is not JSON. */
  ghost predicate Faithful(c: Codec) {
    && (forall v: Json :: c.parse(Text(c, v)) == Some(v))
    && (forall v: Json :: Tight(Text(c, v)) && '\n' !in Text(c, v))
    && c.parse("[DONE]") == None
  }

  // ---------------------------------------------------------------- reading values with defaults

  const NO_FIELDS: map<string, Json> := map[]

  /** The value of a key; a missing key reads as null. */
  function Get(m: map<string, Json>, k: string): Json {
    if k in m then m[k] else Null
  }

  function StrOr(v: Json): string {
    if v.Str? then v.s else ""
  }

  /** Unmarshal into a map: objects, and null as an empty map; anything else is an error. */
  function AsMap(v: Option<Json>): Option<map<string, Json>> {
    match v
    case Some(Obj(m)) => Some(m)
    case Some(Null) => Some(NO_FIELDS)
    case _ => None
  }

  function Power10(n: nat): nat
    ensures Power10(n) > 0
  {
    if n == 0 then 1 else 10 * Power10(n - 1)
  }

  /** Truncation towards zero. */
  function Truncated(n: Number): int {
    if n.exponent >= 0 then n.mantissa * Power10(n.exponent)
    else if n.mantissa >= 0 then n.mantissa / Power10(-n.exponent)
    else -(-n.mantissa / Power10(-n.exponent))
  }

  lemma WholePart(m: nat, p: nat)
    requires p > 0
    ensures m / p * p <= m < m / p * p + p
  {
    assert m == m / p * p + m % p;
  }

  /** The number of whole `p` in `m`. */
  predicate Whole(t: int, m: int, p: int) {
    t * p <= m < t * p + p
  }

  function JsonNum(v: Json): int {
    if v.Num? then Truncated(v.n) else 0
  }

  /** A number is read as a whole one, what stands behind the point cut off; `p` is what the decimals are over. */
  lemma CutTowardsZero(n: Number, p: nat)
    requires p == Power10(if n.exponent < 0 then -n.exponent else n.exponent)
    ensures n.exponent >= 0 ==> JsonNum(Num(n)) == n.mantissa * p
    ensures n.exponent < 0 ==>
              if n.mantissa >= 0 then Whole(JsonNum(Num(n)), n.mantissa, p) else Whole(-JsonNum(Num(n)), -n.mantissa, p)
  {
    if n.exponent < 0 {
      var m := if n.mantissa >= 0 then n.mantissa else -n.mantissa;
      var q := m / p;
      WholePart(m, p);
      assert Whole(q, m, p);
      assert Truncated(n) == if n.mantissa >= 0 then q else -q;
    }
  }

  function IntJson(i: int): Json {
    Num(Number(i, 0))
  }
}
