/** The plain structured views that the `toJSON` methods build: JavaScript
    objects as maps from field name to value. */
module Json {

  datatype Json =
    | Undefined
    | JNum(n: int)
    | JStr(s: string)
    | JArr(items: seq<Json>)
    | JObj(fields: map<string, Json>)

  /** A JavaScript object literal. */
  type Objeto = map<string, Json>

  /** An array of strings, as `Array.from` of a set of ids gives it. */
  function Textos(ss: seq<string>): (r: seq<Json>)
    ensures |r| == |ss|
    ensures forall i :: 0 <= i < |ss| ==> r[i] == JStr(ss[i])
  {
    if ss == [] then [] else [JStr(ss[0])] + Textos(ss[1..])
  }

  /** `{ ...base, ...extra }`: every field of `extra`, and every field of
      `base` that `extra` does not override. */
  function Espalhar(base: Objeto, extra: Objeto): (r: Objeto)
    ensures r.Keys == base.Keys + extra.Keys
    ensures forall k :: k in extra ==> r[k] == extra[k]
    ensures forall k :: k in base && k !in extra ==> r[k] == base[k]
  {
    base + extra
  }
}
