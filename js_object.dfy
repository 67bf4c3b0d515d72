/**
 * The JavaScript object semantics the Redux reducers rely on: a record is a
 * map from field names to values, `{...a, ...b}` takes every field of `b`
 * and the fields of `a` that `b` does not set, and `!payload.id` is true for
 * a missing, empty or zero id.
 */
module JsObject {
  import opened Wrappers

  /**
   * The field values the reducers' records hold. `NaN` is what arithmetic
   * on a missing number produces (`undefined + 1`).
   */
  datatype Value = Str(s: string) | Num(n: int) | Bool(b: bool) | Ids(ids: seq<string>) | NaN

  type Record = map<string, Value>

  /** What a reducer throws; Immer then discards the draft and the state stays as it was. */
  datatype ReducerError =
    | MissingId   // `throw Error("Id needed in ... payload")`
    | TypeError   // a field read on `undefined`, such as `byId[unknown].tracks`

  /** `{...base, ...patch}`. */
  function Spread(base: Record, patch: Record): (r: Record)
    ensures r.Keys == base.Keys + patch.Keys
    ensures forall f :: f in patch ==> r[f] == patch[f]
    ensures forall f :: f in base && f !in patch ==> r[f] == base[f]
  {
    base + patch
  }

  /** JavaScript truthiness of a field value. */
  predicate Truthy(v: Value)
  {
    match v
    case Str(s) => s != ""
    case Num(n) => n != 0
    case Bool(b) => b
    case Ids(_) => true
    case NaN => false
  }

  /** The record's `id` is a string, as `Partial<T>` with `id: string` allows (it may be missing). */
  predicate StrIdTyped(r: Record)
  {
    "id" in r ==> r["id"].Str?
  }

  /** The record's `id` is a number, as `Partial<T>` with `id: number` allows. */
  predicate NumIdTyped(r: Record)
  {
    "id" in r ==> r["id"].Num?
  }

  /** `payload.id` when it passes `if (!payload.id) throw`, for string ids. */
  function StrId(r: Record): (id: Option<string>)
    requires StrIdTyped(r)
    ensures id.Some? <==> "id" in r && r["id"] != Str("")
    ensures id.Some? ==> r["id"] == Str(id.value) && id.value != ""
  {
    if "id" in r && r["id"].s != "" then Some(r["id"].s) else None
  }

  /** `payload.id` when it passes `if (!payload.id) throw`, for number ids: 0 is rejected too. */
  function NumId(r: Record): (id: Option<int>)
    requires NumIdTyped(r)
    ensures id.Some? <==> "id" in r && r["id"] != Num(0)
    ensures id.Some? ==> r["id"] == Num(id.value) && id.value != 0
  {
    if "id" in r && r["id"].n != 0 then Some(r["id"].n) else None
  }

  /** A whole entity (`Playlist`, `Track`, ...) carries a string id. */
  predicate HasStrId(r: Record)
  {
    "id" in r && r["id"].Str?
  }

  /** A whole `Tab` carries a number id. */
  predicate HasNumId(r: Record)
  {
    "id" in r && r["id"].Num?
  }
}
