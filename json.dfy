/**
 * JSON values as the client sees them after `JSON.parse`. Numbers are
 * integers only; `null` and a missing (undefined) value are both `JNull`.
 * Object members keep the order in which the text listed them; when a name
 * occurs twice, the later member's value is the one read, as with `JSON.parse`.
 */
module JsonModel {
  import opened Common

  datatype Json =
    | JNull
    | JBool(b: bool)
    | JNum(n: int)
    | JStr(s: string)
    | JArr(items: seq<Json>)
    | JObj(fields: seq<(string, Json)>)

  /** The value of the last member named `k`, if there is one. */
  function Member(fields: seq<(string, Json)>, k: string): (o: Option<Json>)
    ensures o.Some? <==> k in Names(fields)
  {
    if fields == [] then None
    else if fields[|fields| - 1].0 == k then Some(fields[|fields| - 1].1)
    else
      assert Names(fields) == Names(fields[..|fields| - 1]) + [fields[|fields| - 1].0];
      Member(fields[..|fields| - 1], k)
  }

  /** The member names, in the order the text listed them. */
  function Names(fields: seq<(string, Json)>): (ns: seq<string>)
    ensures |ns| == |fields|
    ensures forall i :: 0 <= i < |fields| ==> ns[i] == fields[i].0
  {
    if fields == [] then [] else [fields[0].0] + Names(fields[1..])
  }

  /** `(value as Record<string, unknown>)[k]`: a missing member reads as undefined. */
  function Field(value: Json, k: string): Json {
    if value.JObj? then Member(value.fields, k).GetOr(JNull) else JNull
  }

  /** `Object.keys(value)` for an object value. */
  function KeysOf(value: Json): seq<string> {
    if value.JObj? then Names(value.fields) else []
  }
}
