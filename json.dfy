/** The JavaScript values that the screens keep in state, spread into records
    and store: a JSON-shaped value with `null` standing for both `null` and
    `undefined`, and numbers restricted to integers. */
module JsonValues {
  import opened Wrappers
  import opened Dicts
  import opened Strings

  datatype Json =
    | JNull
    | JBool(b: bool)
    | JNum(n: int)
    | JStr(s: string)
    | JArr(items: seq<Json>)
    | JObj(fields: Dict<Json>)

  /** JavaScript truthiness: `null`, `false`, `0` and `''` are falsy. */
  predicate Truthy(j: Json) {
    match j
    case JNull => false
    case JBool(b) => b
    case JNum(n) => n != 0
    case JStr(s) => s != []
    case JArr(_) => true
    case JObj(_) => true
  }

  /** Optional property read `j?.k`; a missing key or a non-object reads as `null`. */
  function Get(j: Json, k: string): (r: Json)
    ensures j.JObj? && HasKey(j.fields, k) ==> r == Lookup(j.fields, k).value
    ensures !j.JObj? || !HasKey(j.fields, k) ==> r == JNull
  {
    if j.JObj? then Lookup(j.fields, k).GetOr(JNull) else JNull
  }

  /** `a || b`. */
  function Or(a: Json, b: Json): Json {
    if Truthy(a) then a else b
  }

  /** The own properties that `{ ...j }` copies; a non-object contributes none. */
  function Fields(j: Json): Dict<Json> {
    if j.JObj? then j.fields else []
  }

  /** `{ ...j, [k]: v }`. */
  function With(j: Json, k: string, v: Json): Json {
    JObj(Put(Fields(j), k, v))
  }

  /** `parseInt(String(j))` for the values the forms hold. */
  function ParseIntOf(j: Json): Option<int> {
    match j
    case JStr(s) => JsParseInt(s)
    case JNum(n) => Some(n)
    case _ => None
  }

  /** `parseInt(j) || 0`: not a number (and zero) become 0. */
  function ParseIntOrZeroOf(j: Json): int {
    ParseIntOf(j).GetOr(0)
  }

  function StrList(ss: seq<string>): (r: seq<Json>)
    ensures |r| == |ss| && forall i :: 0 <= i < |ss| ==> r[i] == JStr(ss[i])
  {
    seq(|ss|, i requires 0 <= i < |ss| => JStr(ss[i]))
  }

  /** `{ ...j, [k]: v }` reads back `v` at `k`. */
  lemma WithGetSame(j: Json, k: string, v: Json)
    ensures Get(With(j, k, v), k) == v
  {
    PutLookupSame(Fields(j), k, v);
  }

  /** `{ ...j, [k]: v }` reads every other key as `j` did. */
  lemma WithGetOther(j: Json, k: string, v: Json, other: string)
    requires other != k
    ensures Get(With(j, k, v), other) == Get(j, other)
  {
    PutLookupOther(Fields(j), k, v, other);
  }
}
