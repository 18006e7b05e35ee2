/** Shared vocabulary of the dashboard's record store: stored values, the keys
    of a `user_data` row, advice categories and the storage fault plan. */
module Common {

  datatype Option<T> = None | Some(value: T) {
    function GetOr(default: T): T {
      if Some? then value else default
    }
  }

  /** A cell of a stored row or of a form's field bag. */
  datatype Value = Text(s: string) | Num(x: real) | Flag(b: bool) | Null

  /** Python truthiness of a stored value (`if value:`). */
  predicate Truthy(v: Value) {
    match v
    case Text(s) => s != ""
    case Num(x) => x != 0.0
    case Flag(b) => b
    case Null => false
  }

  /** The four advice categories that partition the suggestion cache. */
  datatype Category = Life | Investment | Health | Education

  /** The four per-child fields the education form stores. */
  datatype ChildField = Age | Grade | Interests | Goals

  /** A column of a `user_data` row.  `ChildKey(i, f)` stands for
      `child_{i}_{f}`, `SuggestionText(c)` for `ai_{c}_suggestion` and
      `SuggestionDate(c)` for `last_ai_{c}_date`; every other column is
      `Col(name)` under its own name. */
  datatype Key =
    | Col(name: string)
    | ChildKey(i: nat, field: ChildField)
    | SuggestionText(cat: Category)
    | SuggestionDate(cat: Category)

  const UserIdKey: Key := Col("user_id")
  const CreatedAtKey: Key := Col("created_at")
  const UpdatedAtKey: Key := Col("updated_at")

  type Row = map<Key, Value>

  /** A child as the education form collects it. */
  datatype Child = Child(age: int, grade: string, interests: string, goals: string)

  /** Which storage call of one operation raises, if any.  `SelectRaises`:
      the lookup raises; `WriteRaises`: the lookup succeeds and the insert or
      update that follows raises. */
  datatype StorageFault = Healthy | SelectRaises | WriteRaises

  /** `d.get(k, default)` */
  function Get<K, V>(d: map<K, V>, k: K, default: V): V {
    if k in d then d[k] else default
  }

  /** Index of the first element satisfying `p`, or -1: what keeping
      `data[0]` of a filtered select finds. */
  function FirstIndexWhere<T>(rows: seq<T>, p: T -> bool): (k: int)
    ensures -1 <= k < |rows|
    ensures k == -1 ==> forall j :: 0 <= j < |rows| ==> !p(rows[j])
    ensures k >= 0 ==> p(rows[k]) && forall j :: 0 <= j < k ==> !p(rows[j])
  {
    if |rows| == 0 then -1
    else if p(rows[0]) then 0
    else
      var k := FirstIndexWhere(rows[1..], p);
      if k == -1 then -1 else k + 1
  }
}
