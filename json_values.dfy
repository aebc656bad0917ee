/**
 * Parsed JSON values, as the source receives them from `JSON.parse` and from
 * the engine's HTTP responses. Numbers are exact reals (IEEE rounding, NaN and
 * the infinities are not represented).
 */
module JsonValues {
  import opened Wrappers
  import opened Objects
  import Text

  datatype Json =
    | JNull
    | JBool(b: bool)
    | JNum(n: real)
    | JStr(s: string)
    | JArr(items: seq<Json>)
    | JObj(fields: Obj<Json>)

  /** The message of the `SyntaxError` that parsing text which is not JSON throws. */
  const PARSE_ERROR := "Unexpected token in JSON"

  /** `j.k` on a parsed value: only objects carry named properties. */
  function Prop(j: Json, k: string): Option<Json>
  {
    if j.JObj? then Get(j.fields, k) else None
  }

  /** `x != null` for a property read: present and not JSON `null`. */
  predicate Present(p: Option<Json>)
  {
    p.Some? && p.value != JNull
  }

  /** JavaScript truthiness of a parsed value. */
  predicate Truthy(j: Json)
  {
    match j
    case JNull => false
    case JBool(b) => b
    case JNum(n) => n != 0.0
    case JStr(s) => s != ""
    case JArr(_) => true
    case JObj(_) => true
  }

  /** A property read as a string, when it holds one. */
  function StrProp(j: Json, k: string): Option<string>
  {
    match Prop(j, k)
    case Some(JStr(s)) => Some(s)
    case _ => None
  }

  /** A property read as a list of strings, when it holds an array; other elements are skipped. */
  function Strings(items: seq<Json>): (r: seq<string>)
    ensures |r| <= |items|
  {
    if items == [] then []
    else (if items[0].JStr? then [items[0].s] else []) + Strings(items[1..])
  }

  /** The own enumerable properties `{...j}` copies: index keys "0", "1", ... for arrays and strings. */
  function SpreadOf(j: Json): (r: Obj<Json>)
    ensures j.JObj? ==> r == j.fields
    ensures j.JArr? ==> |r| == |j.items| && forall i | 0 <= i < |r| :: r[i] == (Text.NatToString(i), j.items[i])
    ensures j.JStr? ==> |r| == |j.s| && forall i | 0 <= i < |r| :: r[i] == (Text.NatToString(i), JStr([j.s[i]]))
    ensures !j.JObj? && !j.JArr? && !j.JStr? ==> r == []
  {
    match j
    case JObj(f) => f
    case JArr(items) => IndexEntries(items)
    case JStr(s) => IndexEntries(seq(|s|, i requires 0 <= i < |s| => JStr([s[i]])))
    case _ => []
  }

  function IndexEntries(vs: seq<Json>): (r: Obj<Json>)
    ensures |r| == |vs| && forall i | 0 <= i < |r| :: r[i] == (Text.NatToString(i), vs[i])
  {
    var r := seq(|vs|, i requires 0 <= i < |vs| => (Text.NatToString(i), vs[i]));
    assert DistinctKeys(r) by {
      forall i, j | 0 <= i < j < |r| ensures r[i].0 != r[j].0 {
        if r[i].0 == r[j].0 { Text.NatToStringInjective(i, j); }
      }
    }
    r
  }
}
