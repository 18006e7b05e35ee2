/** Account rules over the `users` table: `register_user` and
    `authenticate_login`.  The password hash is a parameter. */
module Accounts {
  import opened Common

  /** A `users` row; `password` holds the hash of the password. */
  datatype Account = Account(username: string, email: string, password: string, createdAt: string)

  /** Index of the first account named `username`, or -1. */
  function FirstIndexNamed(rows: seq<Account>, username: string): (k: int)
    ensures -1 <= k < |rows|
    ensures k == -1 ==> forall j :: 0 <= j < |rows| ==> rows[j].username != username
    ensures k >= 0 ==> rows[k].username == username && forall j :: 0 <= j < k ==> rows[j].username != username
  {
    FirstIndexWhere(rows, (row: Account) => row.username == username)
  }

  /** `result.data[0]` of a select by username, if there is one. */
  function FirstNamed(rows: seq<Account>, username: string): Option<Account> {
    var k := FirstIndexNamed(rows, username);
    if k == -1 then None else Some(rows[k])
  }

  /** No two accounts share a username. */
  predicate UniqueUsernames(rows: seq<Account>) {
    forall i, j :: 0 <= i < j < |rows| ==> rows[i].username != rows[j].username
  }

  /** The account table's view of a login: the first account with the name,
      provided its stored hash is the hash of the password given. */
  function LoginResult(rows: seq<Account>, username: string, password: string, hash: string -> string)
    : (r: Option<Account>)
    ensures r.Some? <==> FirstNamed(rows, username).Some? && FirstNamed(rows, username).value.password == hash(password)
    ensures r.Some? ==> r.value.username == username && r.value in rows
    ensures r.Some? ==> r == FirstNamed(rows, username)
  {
    var first := FirstNamed(rows, username);
    if first.Some? && first.value.password == hash(password) then first else None
  }

  /** The `users` table of the storage service. */
  class UsersTable {
    var rows: seq<Account>

    constructor (rows: seq<Account>)
      ensures this.rows == rows
    {
      this.rows := rows;
    }

    /** `select(...).eq('username', username)`, keeping the first result. */
    method SelectFirst(username: string) returns (row: Option<Account>)
      ensures row == FirstNamed(rows, username)
    {
      var i := 0;
      while i < |rows|
        invariant 0 <= i <= |rows|
        invariant forall j :: 0 <= j < i ==> rows[j].username != username
      {
        if rows[i].username == username {
          return Some(rows[i]);
        }
        i := i + 1;
      }
      return None;
    }

    method Insert(account: Account)
      modifies this
      ensures rows == old(rows) + [account]
    {
      rows := rows + [account];
    }
  }

  /** `authenticate_login`: the first account with the username when its
      stored hash equals the hash of the password; nothing otherwise or
      when the lookup raises. */
  method AuthenticateLogin(users: UsersTable, username: string, password: string, hash: string -> string,
                           selectRaises: bool)
    returns (r: Option<Account>)
    ensures selectRaises ==> r == None
    ensures !selectRaises ==> r == LoginResult(users.rows, username, password, hash)
  {
    if selectRaises {
      return None;
    }
    var hashed := hash(password);
    var first := users.SelectFirst(username);
    if first.Some? && first.value.password == hashed {
      return first;
    }
    return None;
  }

  /** `register_user`: refused when the username is taken; otherwise one
      account is inserted with the hashed password.  Any storage exception
      makes it return false. */
  method RegisterUser(users: UsersTable, username: string, email: string, password: string,
                      hash: string -> string, now: string, fault: StorageFault)
    returns (ok: bool)
    modifies users
    ensures ok <==> fault == Healthy && FirstNamed(old(users.rows), username).None?
    ensures ok ==> users.rows == old(users.rows) + [Account(username, email, hash(password), now)]
    ensures !ok ==> users.rows == old(users.rows)
    ensures UniqueUsernames(old(users.rows)) ==> UniqueUsernames(users.rows)
  {
    if fault == SelectRaises {
      return false;
    }
    var hashed := hash(password);
    var existing := users.SelectFirst(username);
    if existing.Some? {
      return false;
    }
    if fault == WriteRaises {
      return false;
    }
    users.Insert(Account(username, email, hashed, now));
    ok := true;
  }

  /** A user who has just registered can log in with the same password. */
  lemma RegisterThenLogin(rows: seq<Account>, username: string, email: string, password: string,
                                             hash: string -> string, now: string)
    requires FirstNamed(rows, username).None?
    ensures LoginResult(rows + [Account(username, email, hash(password), now)], username, password, hash)
            == Some(Account(username, email, hash(password), now))
  {
    var after := rows + [Account(username, email, hash(password), now)];
    assert FirstIndexNamed(rows, username) == -1;
    assert forall j :: 0 <= j < |rows| ==> after[j] == rows[j] && after[j].username != username;
    assert after[|rows|].username == username;
    assert FirstIndexNamed(after, username) == |rows|;
  }

  /** Registering leaves every other user's login as it was. */
  lemma RegisterKeepsOtherLogins(rows: seq<Account>, username: string, email: string, password: string,
                                 hash: string -> string, now: string, other: string, otherPassword: string)
    requires other != username
    ensures LoginResult(rows + [Account(username, email, hash(password), now)], other, otherPassword, hash)
            == LoginResult(rows, other, otherPassword, hash)
  {
    var after := rows + [Account(username, email, hash(password), now)];
    assert forall j :: 0 <= j < |rows| ==> after[j] == rows[j];
    var k := FirstIndexNamed(rows, other);
    if k >= 0 {
      assert FirstIndexNamed(after, other) == k;
    } else {
      assert FirstIndexNamed(after, other) == -1;
    }
  }
}
