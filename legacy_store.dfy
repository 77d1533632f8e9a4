/**
 * The older subscriber store of cat_bot/database.py: a `users` table whose
 * only columns are the `user_id` key and `subscribed_at`.  Every call opens
 * the database file; until `init_db` has created the table, SQLite raises
 * "no such table", which none of these functions catches.
 */
module LegacyStore {
  import opened Wrappers
  import opened Listing

  /** Outcome of `add_user`; `NoSuchTable` is the uncaught OperationalError. */
  datatype AddResult = Inserted | Duplicate | NoSuchTable

  class SubscriberDb {
    var tableExists: bool
    /** user_id -> subscribed_at */
    var rows: map<int, Timestamp>

    /** A database file, with or without the table. */
    constructor Open(tableExists: bool, rows: map<int, Timestamp>)
      requires tableExists || rows == map[]
      ensures this.tableExists == tableExists && this.rows == rows
    {
      this.tableExists := tableExists;
      this.rows := rows;
    }

    /** `init_db`: CREATE TABLE IF NOT EXISTS; an existing table keeps its rows. */
    method InitDb()
      modifies this
      ensures tableExists
      ensures rows == old(rows)
    {
      tableExists := true;
    }

    /** `is_user_subscribed`; None when the query raises. */
    function IsUserSubscribed(u: int): (r: Option<bool>)
      reads this
      ensures r.Some? <==> tableExists
      ensures r == Some(true) <==> tableExists && u in rows
    {
      if tableExists then Some(u in rows) else None
    }

    /**
     * `add_user`: insert with `now` as `subscribed_at`; the IntegrityError of
     * a duplicate key is caught, and the stored row is left as it was.
     */
    method AddUser(u: int, now: Timestamp) returns (r: AddResult)
      modifies this`rows
      ensures r == if !tableExists then NoSuchTable
                   else if u in old(rows) then Duplicate
                   else Inserted
      ensures rows == if r == Inserted then old(rows)[u := now] else old(rows)
      ensures forall v :: v in old(rows) ==> v in rows && rows[v] == old(rows)[v]
      ensures r != NoSuchTable ==> IsUserSubscribed(u) == Some(true)
    {
      if !tableExists {
        return NoSuchTable;
      }
      if u in rows {
        return Duplicate;
      }
      rows := rows[u := now];
      r := Inserted;
    }

    /** `remove_user`: unconditional delete; `raised` when the table is missing. */
    method RemoveUser(u: int) returns (raised: bool)
      modifies this`rows
      ensures raised <==> !tableExists
      ensures rows == if raised then old(rows) else old(rows) - {u}
      ensures !raised ==> u !in rows
      ensures forall v :: v in rows ==> v in old(rows) && rows[v] == old(rows)[v]
      ensures u !in old(rows) ==> rows == old(rows)
      ensures !raised ==> IsUserSubscribed(u) == Some(false)
      ensures forall v :: v != u ==> IsUserSubscribed(v) == old(IsUserSubscribed(v))
    {
      raised := !tableExists;
      if !raised {
        rows := rows - {u};
      }
    }

    /** `get_all_users`: every stored id once; None when the query raises. */
    function GetAllUsers(): (r: Option<seq<int>>)
      reads this
      ensures r.Some? <==> tableExists
      ensures r.Some? ==> StrictlyIncreasing(r.value) && |r.value| == |rows|
      ensures r.Some? ==> forall v :: v in r.value <==> IsUserSubscribed(v) == Some(true)
    {
      if tableExists then Some(Ascending(rows.Keys)) else None
    }
  }
}
