/**
 * The data-access layer: five operations on the `users` table, each taking a
 * connection from the pool and giving it back on every exit path.
 */
module UserModel {
  import opened Wrappers

  /** The seven columns a caller supplies; `null` is `None`. */
  datatype UserFields = UserFields(
    firstName: string,
    lastName: string,
    email: string,
    phone: Option<string>,
    company: Option<string>,
    role: Option<string>,
    country: Option<string>)

  /** A row, or the `{ id, ...userData }` object built from one. */
  datatype User = User(id: int, fields: UserFields)

  /** How an `async` operation ends: with a value, or by throwing an error with a message. */
  datatype Completion<+T> = Returned(value: T) | Threw(message: string)

  /**
   * What the pool and the database do on one call, which the model cannot see:
   * nothing goes wrong, `pool.getConnection()` rejects, or the query rejects.
   */
  datatype Fault = NoFault | AcquireFails(message: string) | QueryFails(message: string)

  /** The smallest id in a non-empty set of ids. */
  function MinId(ids: set<int>): (m: int)
    requires ids != {}
    ensures m in ids && forall k :: k in ids ==> m <= k
  {
    MinExists(ids);
    var m :| m in ids && forall k :: k in ids ==> m <= k;
    m
  }

  lemma {:induction false} MinExists(ids: set<int>)
    requires ids != {}
    ensures exists m :: m in ids && forall k :: k in ids ==> m <= k
    decreases |ids|
  {
    assert exists y :: y in ids by {
      if forall y :: y !in ids {
        assert false;
      }
    }
    var x :| x in ids;
    if ids != {x} {
      var rest := ids - {x};
      MinExists(rest);
      var m :| m in rest && forall k :: k in rest ==> m <= k;
      var least := if x < m then x else m;
      forall k | k in ids
        ensures least <= k
      {
        if k != x {
          assert k in rest;
        }
      }
    } else {
      assert forall k :: k in ids ==> x <= k;
    }
  }

  /** The result of `SELECT * FROM users`: the rows in ascending id order. */
  function Listing(table: map<int, UserFields>): (rows: seq<User>)
    ensures rows == [] <==> table == map[]
    decreases |table|
  {
    if table == map[] then []
    else
      var m := MinId(table.Keys);
      var rest := table - {m};
      assert rest.Keys == table.Keys - {m};
      [User(m, table[m])] + Listing(rest)
  }

  /** Removing the smallest id from a non-empty table leaves the rest of the listing. */
  lemma ListingUnfold(table: map<int, UserFields>)
    requires table != map[]
    ensures MinId(table.Keys) in table
    ensures Listing(table) == [User(MinId(table.Keys), table[MinId(table.Keys)])] + Listing(table - {MinId(table.Keys)})
    ensures (table - {MinId(table.Keys)}).Keys == table.Keys - {MinId(table.Keys)}
  {
  }

  /** The listing has one entry per row. */
  lemma {:induction false} ListingLength(table: map<int, UserFields>)
    ensures |Listing(table)| == |table|
    decreases |table|
  {
    if table != map[] {
      var m := MinId(table.Keys);
      ListingUnfold(table);
      ListingLength(table - {m});
      assert |(table - {m}).Keys| == |table.Keys| - 1;
    }
  }

  /** Every listed entry is a row of the table. */
  lemma {:induction false} ListingSound(table: map<int, UserFields>, u: User)
    requires u in Listing(table)
    ensures u.id in table && table[u.id] == u.fields
    decreases |table|
  {
    var m := MinId(table.Keys);
    ListingUnfold(table);
    var rest := table - {m};
    if u != User(m, table[m]) {
      assert |rest.Keys| < |table.Keys|;
      ListingSound(rest, u);
    }
  }

  /** Every row of the table is listed. */
  lemma {:induction false} ListingComplete(table: map<int, UserFields>, id: int)
    requires id in table
    ensures User(id, table[id]) in Listing(table)
    decreases |table|
  {
    var m := MinId(table.Keys);
    ListingUnfold(table);
    var rest := table - {m};
    if id != m {
      assert |rest.Keys| < |table.Keys|;
      ListingComplete(rest, id);
    }
  }

  /** No row is listed twice: the listed ids are pairwise distinct, whatever order is chosen. */
  lemma ListingDistinct(table: map<int, UserFields>, i: int, j: int)
    requires 0 <= i < |Listing(table)| && 0 <= j < |Listing(table)| && i != j
    ensures Listing(table)[i].id != Listing(table)[j].id
  {
    if i < j {
      ListingSorted(table, i, j);
    } else {
      ListingSorted(table, j, i);
    }
  }

  /** Ids strictly increase along the listing. */
  lemma {:induction false} ListingSorted(table: map<int, UserFields>, i: int, j: int)
    requires 0 <= i < j < |Listing(table)|
    ensures Listing(table)[i].id < Listing(table)[j].id
    decreases |table|
  {
    var m := MinId(table.Keys);
    ListingUnfold(table);
    var rest := table - {m};
    assert |rest.Keys| < |table.Keys|;
    var rows := Listing(table);
    if i == 0 {
      ListingSound(rest, rows[j]);
      assert rows[j].id in table.Keys - {m};
    } else {
      ListingSorted(rest, i - 1, j - 1);
    }
  }

  class Database {
    /** The `users` table, keyed by id. */
    var table: map<int, UserFields>
    /** The table's AUTO_INCREMENT counter: the id the next insert receives. */
    var nextId: int
    /** Connections taken from the pool and not yet released. */
    var outstanding: nat

    /** Ids are positive and every stored id is below the counter. */
    ghost predicate Valid()
      reads this
    {
      nextId >= 1 && forall id :: id in table ==> 1 <= id < nextId
    }

    constructor ()
      ensures Valid()
      ensures table == map[] && nextId == 1 && outstanding == 0
    {
      table, nextId, outstanding := map[], 1, 0;
    }

    /** `await pool.getConnection()` once it has succeeded. */
    method Acquire()
      modifies this`outstanding
      ensures outstanding == old(outstanding) + 1
    {
      outstanding := outstanding + 1;
    }

    /** `connection.release()` */
    method Release()
      requires outstanding > 0
      modifies this`outstanding
      ensures outstanding == old(outstanding) - 1
    {
      outstanding := outstanding - 1;
    }

    /** `getAllUsers` */
    method GetAllUsers(fault: Fault) returns (r: Completion<seq<User>>)
      modifies this`outstanding
      ensures outstanding == old(outstanding)
      ensures fault.NoFault? ==> r == Returned(Listing(table))
      ensures !fault.NoFault? ==> r == Threw(fault.message)
    {
      if fault.AcquireFails? {
        return Threw(fault.message);
      }
      Acquire();
      if fault.QueryFails? {
        r := Threw(fault.message);
      } else {
        r := Returned(Listing(table));
      }
      Release();
    }

    /** `getUserById`: `rows[0]`, which is `undefined` when no row has the id. */
    method GetUserById(id: int, fault: Fault) returns (r: Completion<Option<User>>)
      modifies this`outstanding
      ensures outstanding == old(outstanding)
      ensures fault.NoFault? && id in table ==> r == Returned(Some(User(id, table[id])))
      ensures fault.NoFault? && id !in table ==> r == Returned(None)
      ensures !fault.NoFault? ==> r == Threw(fault.message)
    {
      if fault.AcquireFails? {
        return Threw(fault.message);
      }
      Acquire();
      if fault.QueryFails? {
        r := Threw(fault.message);
      } else if id in table {
        r := Returned(Some(User(id, table[id])));
      } else {
        r := Returned(None);
      }
      Release();
    }

    /** `createUser`: INSERT under a fresh id, then `{ id: insertId, ...userData }`. */
    method CreateUser(data: UserFields, fault: Fault) returns (r: Completion<User>)
      requires Valid()
      modifies this
      ensures Valid()
      ensures outstanding == old(outstanding)
      ensures fault.NoFault? ==>
                && r == Returned(User(old(nextId), data))
                && old(nextId) !in old(table)
                && table == old(table)[old(nextId) := data]
                && nextId > old(nextId)
      ensures !fault.NoFault? ==>
                r == Threw(fault.message) && table == old(table) && nextId == old(nextId)
    {
      if fault.AcquireFails? {
        return Threw(fault.message);
      }
      Acquire();
      if fault.QueryFails? {
        r := Threw(fault.message);
      } else {
        var insertId := nextId;
        table := table[insertId := data];
        nextId := nextId + 1;
        r := Returned(User(insertId, data));
      }
      Release();
    }

    /** `updateUser`: UPDATE ... WHERE id = ?, then `{ id, ...userData }` whether or not a row matched. */
    method UpdateUser(id: int, data: UserFields, fault: Fault) returns (r: Completion<User>)
      requires Valid()
      modifies this
      ensures Valid()
      ensures outstanding == old(outstanding) && nextId == old(nextId)
      ensures fault.NoFault? ==>
                && r == Returned(User(id, data))
                && table == if id in old(table) then old(table)[id := data] else old(table)
      ensures !fault.NoFault? ==> r == Threw(fault.message) && table == old(table)
    {
      if fault.AcquireFails? {
        return Threw(fault.message);
      }
      Acquire();
      if fault.QueryFails? {
        r := Threw(fault.message);
      } else {
        if id in table {
          table := table[id := data];
        }
        r := Returned(User(id, data));
      }
      Release();
    }

    /** `deleteUser`: DELETE ... WHERE id = ?, then `affectedRows > 0`. */
    method DeleteUser(id: int, fault: Fault) returns (r: Completion<bool>)
      requires Valid()
      modifies this
      ensures Valid()
      ensures outstanding == old(outstanding) && nextId == old(nextId)
      ensures fault.NoFault? ==>
                r == Returned(id in old(table)) && table == old(table) - {id} && id !in table
      ensures !fault.NoFault? ==> r == Threw(fault.message) && table == old(table)
    {
      if fault.AcquireFails? {
        return Threw(fault.message);
      }
      Acquire();
      if fault.QueryFails? {
        r := Threw(fault.message);
      } else {
        var affectedRows := if id in table then 1 else 0;
        table := table - {id};
        r := Returned(affectedRows > 0);
      }
      Release();
    }
  }
}
