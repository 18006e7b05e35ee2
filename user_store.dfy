/** The `user_data` table and the record store operations over it:
    `save_user_data` (upsert by existence check) and `load_user_data`. */
module UserStore {
  import opened Common

  // ---------------------------------------------------------------------
  // The table, as values

  /** The row belongs to user `uid` (the filter `eq('user_id', uid)`). */
  predicate Owns(row: Row, uid: string) {
    UserIdKey in row && row[UserIdKey] == Text(uid)
  }

  /** Index of the first row of `uid`, or -1. */
  function FirstIndex(rows: seq<Row>, uid: string): (k: int)
    ensures -1 <= k < |rows|
    ensures k == -1 ==> forall j :: 0 <= j < |rows| ==> !Owns(rows[j], uid)
    ensures k >= 0 ==> Owns(rows[k], uid) && forall j :: 0 <= j < k ==> !Owns(rows[j], uid)
  {
    FirstIndexWhere(rows, row => Owns(row, uid))
  }

  /** `result.data[0]` of a select by user id, if there is one. */
  function FirstRow(rows: seq<Row>, uid: string): Option<Row> {
    var k := FirstIndex(rows, uid);
    if k == -1 then None else Some(rows[k])
  }

  /** `update(patch).eq('user_id', uid)`: every row of `uid` takes the
      patch's values; all other rows stay as they are. */
  function MergeWhere(rows: seq<Row>, uid: string, patch: Row): seq<Row> {
    seq(|rows|, j requires 0 <= j < |rows| => if Owns(rows[j], uid) then rows[j] + patch else rows[j])
  }

  /** The row inserted for a user who has none yet: the patch with the
      owner and a creation time. */
  function InsertedRow(patch: Row, uid: string, now: string): Row {
    patch[UserIdKey := Text(uid)][CreatedAtKey := Text(now)]
  }

  /** The select-then-update-or-insert write of a patch for `uid`. */
  function Upsert(rows: seq<Row>, uid: string, patch: Row, now: string): seq<Row> {
    if FirstIndex(rows, uid) >= 0 then MergeWhere(rows, uid, patch)
    else rows + [InsertedRow(patch, uid, now)]
  }

  /** A patch that does not move a row to another owner. */
  predicate KeepsOwner(patch: Row, uid: string) {
    UserIdKey in patch ==> patch[UserIdKey] == Text(uid)
  }

  predicate SameOwner(a: Row, b: Row) {
    UserIdKey in a && UserIdKey in b && a[UserIdKey] == b[UserIdKey]
  }

  /** At most one row per user id. */
  predicate UniqueOwners(rows: seq<Row>) {
    forall i, j :: 0 <= i < j < |rows| ==> !SameOwner(rows[i], rows[j])
  }

  // ---------------------------------------------------------------------
  // What an upsert does

  /** Afterwards the user's first row is the old one with the patch laid
      over it, or the freshly inserted row. */
  lemma UpsertFirstRow(rows: seq<Row>, uid: string, patch: Row, now: string)
    requires KeepsOwner(patch, uid)
    ensures FirstRow(Upsert(rows, uid, patch, now), uid) ==
              if FirstRow(rows, uid).Some? then Some(FirstRow(rows, uid).value + patch)
              else Some(InsertedRow(patch, uid, now))
  {
    var k := FirstIndex(rows, uid);
    var after := Upsert(rows, uid, patch, now);
    if k >= 0 {
      assert Owns(after[k], uid);
      assert forall j :: 0 <= j < k ==> after[j] == rows[j];
      assert FirstIndex(after, uid) == k;
    } else {
      assert Owns(after[|rows|], uid);
      assert forall j :: 0 <= j < |rows| ==> after[j] == rows[j];
      assert FirstIndex(after, uid) == |rows|;
    }
  }

  /** The user's row ends with every patched key set to the patch's value
      (owner and creation time aside), and every other key as it was. */
  lemma UpsertSetsPatchedKeys(rows: seq<Row>, uid: string, patch: Row, now: string, key: Key)
    requires KeepsOwner(patch, uid)
    requires key != UserIdKey && key != CreatedAtKey
    ensures FirstRow(Upsert(rows, uid, patch, now), uid).Some?
    ensures key in patch ==> key in FirstRow(Upsert(rows, uid, patch, now), uid).value
                             && FirstRow(Upsert(rows, uid, patch, now), uid).value[key] == patch[key]
    ensures key !in patch && FirstRow(rows, uid).Some? ==>
              Get(FirstRow(Upsert(rows, uid, patch, now), uid).value, key, Null) == Get(FirstRow(rows, uid).value, key, Null)
              && (key in FirstRow(Upsert(rows, uid, patch, now), uid).value <==> key in FirstRow(rows, uid).value)
  {
    UpsertFirstRow(rows, uid, patch, now);
  }

  /** Rows of other users are untouched, and at most one row is added. */
  lemma UpsertLeavesOthers(rows: seq<Row>, uid: string, patch: Row, now: string)
    requires KeepsOwner(patch, uid)
    ensures |rows| <= |Upsert(rows, uid, patch, now)| <= |rows| + 1
    ensures forall j :: 0 <= j < |rows| && !Owns(rows[j], uid) ==> Upsert(rows, uid, patch, now)[j] == rows[j]
    ensures forall other :: other != uid ==> FirstRow(Upsert(rows, uid, patch, now), other) == FirstRow(rows, other)
  {
    var after := Upsert(rows, uid, patch, now);
    forall other | other != uid
      ensures FirstRow(after, other) == FirstRow(rows, other)
    {
      assert forall j :: 0 <= j < |rows| ==> (Owns(after[j], other) <==> Owns(rows[j], other));
      assert forall j :: 0 <= j < |rows| && Owns(rows[j], other) ==> after[j] == rows[j];
      var k := FirstIndex(rows, other);
      if k >= 0 {
        assert FirstIndex(after, other) == k;
      } else if |after| > |rows| {
        assert !Owns(after[|rows|], other);
        assert FirstIndex(after, other) == -1;
      } else {
        assert FirstIndex(after, other) == -1;
      }
    }
  }

  /** An upsert keeps "at most one row per user id". */
  lemma UpsertKeepsUniqueOwners(rows: seq<Row>, uid: string, patch: Row, now: string)
    requires KeepsOwner(patch, uid)
    requires UniqueOwners(rows)
    ensures UniqueOwners(Upsert(rows, uid, patch, now))
  {
    var after := Upsert(rows, uid, patch, now);
    assert forall j :: 0 <= j < |rows| ==>
      (UserIdKey in after[j] <==> UserIdKey in rows[j]) && (UserIdKey in rows[j] ==> after[j][UserIdKey] == rows[j][UserIdKey]);
    if FirstIndex(rows, uid) < 0 {
      forall i | 0 <= i < |rows|
        ensures !SameOwner(after[i], after[|rows|])
      {
        assert !Owns(rows[i], uid);
      }
    }
  }

  // ---------------------------------------------------------------------
  // The table and the caller's field bag, as objects

  /** The caller's dict, which `save_user_data` stamps in place. */
  class FieldBag {
    var fields: Row

    constructor (fields: Row)
      ensures this.fields == fields
    {
      this.fields := fields;
    }
  }

  /** The `user_data` table of the storage service. */
  class UserDataTable {
    var rows: seq<Row>

    constructor (rows: seq<Row>)
      ensures this.rows == rows
    {
      this.rows := rows;
    }

    /** `select('*').eq('user_id', uid)`, keeping the first result. */
    method SelectFirst(uid: string) returns (row: Option<Row>)
      ensures row == FirstRow(rows, uid)
      ensures row.Some? ==> Owns(row.value, uid) && row.value in rows
    {
      var i := 0;
      while i < |rows|
        invariant 0 <= i <= |rows|
        invariant forall j :: 0 <= j < i ==> !Owns(rows[j], uid)
      {
        if Owns(rows[i], uid) {
          return Some(rows[i]);
        }
        i := i + 1;
      }
      return None;
    }

    /** `update(patch).eq('user_id', uid)`, row by row. */
    method UpdateWhere(uid: string, patch: Row)
      modifies this
      ensures rows == MergeWhere(old(rows), uid, patch)
    {
      var i := 0;
      while i < |rows|
        invariant 0 <= i <= |rows| == |old(rows)|
        invariant forall j :: 0 <= j < i ==> rows[j] == MergeWhere(old(rows), uid, patch)[j]
        invariant forall j :: i <= j < |rows| ==> rows[j] == old(rows)[j]
      {
        if Owns(rows[i], uid) {
          rows := rows[i := rows[i] + patch];
        }
        i := i + 1;
      }
    }

    /** `insert(row)`. */
    method Insert(row: Row)
      modifies this
      ensures rows == old(rows) + [row]
    {
      rows := rows + [row];
    }
  }

  /** The stamps `save_user_data` writes into the caller's dict before
      choosing between update and insert. */
  function Stamp(data: Row, uid: string, now: string): Row {
    data[UserIdKey := Text(uid)][UpdatedAtKey := Text(now)]
  }

  /** `save_user_data`: checks for the user's row, stamps the caller's dict
      with the owner and the update time (and, when there is no row yet,
      the creation time), then updates the user's rows or inserts one.  A
      storage exception makes it return false. */
  method SaveUserData(table: UserDataTable, uid: string, data: FieldBag, now: string, fault: StorageFault)
    returns (ok: bool)
    modifies table, data
    ensures ok <==> fault == Healthy
    ensures fault == SelectRaises ==> data.fields == old(data.fields)
    ensures fault != SelectRaises ==>
              data.fields == if FirstRow(old(table.rows), uid).Some? then Stamp(old(data.fields), uid, now)
                             else InsertedRow(Stamp(old(data.fields), uid, now), uid, now)
    ensures table.rows == if ok then Upsert(old(table.rows), uid, Stamp(old(data.fields), uid, now), now)
                          else old(table.rows)
    ensures UniqueOwners(old(table.rows)) ==> UniqueOwners(table.rows)
  {
    if fault == SelectRaises {
      return false;
    }
    var existing := table.SelectFirst(uid);
    data.fields := data.fields[UserIdKey := Text(uid)];
    data.fields := data.fields[UpdatedAtKey := Text(now)];
    if existing.Some? {
      if fault == WriteRaises {
        return false;
      }
      table.UpdateWhere(uid, data.fields);
    } else {
      data.fields := data.fields[CreatedAtKey := Text(now)];
      if fault == WriteRaises {
        return false;
      }
      table.Insert(data.fields);
    }
    if UniqueOwners(old(table.rows)) {
      UpsertKeepsUniqueOwners(old(table.rows), uid, Stamp(old(data.fields), uid, now), now);
    }
    ok := true;
  }

  /** `load_user_data`: the user's first row, or the empty dict when there
      is none or the select raises. */
  method LoadUserData(table: UserDataTable, uid: string, selectRaises: bool) returns (row: Row)
    ensures selectRaises ==> row == map[]
    ensures !selectRaises && FirstRow(table.rows, uid).Some? ==> row == FirstRow(table.rows, uid).value
    ensures !selectRaises && FirstRow(table.rows, uid).None? ==> row == map[]
  {
    if selectRaises {
      return map[];
    }
    var result := table.SelectFirst(uid);
    row := result.GetOr(map[]);
  }

  /** Saving and then loading the same user gives back the saved keys. */
  lemma SaveThenLoad(rows: seq<Row>, uid: string, data: Row, now: string, key: Key)
    requires key in data && key != UserIdKey && key != CreatedAtKey && key != UpdatedAtKey
    ensures FirstRow(Upsert(rows, uid, Stamp(data, uid, now), now), uid).Some?
    ensures key in FirstRow(Upsert(rows, uid, Stamp(data, uid, now), now), uid).value
    ensures FirstRow(Upsert(rows, uid, Stamp(data, uid, now), now), uid).value[key] == data[key]
  {
    UpsertSetsPatchedKeys(rows, uid, Stamp(data, uid, now), now, key);
  }

  /** An update keeps the row's creation time unless the caller's dict
      carries one. */
  lemma SaveKeepsCreatedAt(rows: seq<Row>, uid: string, data: Row, now: string)
    requires FirstRow(rows, uid).Some? && CreatedAtKey in FirstRow(rows, uid).value
    requires CreatedAtKey !in data
    ensures FirstRow(Upsert(rows, uid, Stamp(data, uid, now), now), uid).Some?
    ensures CreatedAtKey in FirstRow(Upsert(rows, uid, Stamp(data, uid, now), now), uid).value
    ensures FirstRow(Upsert(rows, uid, Stamp(data, uid, now), now), uid).value[CreatedAtKey]
            == FirstRow(rows, uid).value[CreatedAtKey]
  {
    UpsertFirstRow(rows, uid, Stamp(data, uid, now), now);
  }
}
