/**
 * The `users` and `bot_users` tables of database/users.py and
 * database/bot_users.py, reached through the process-wide connection.
 * Each table is a map keyed by its `user_id` primary key.  `connected`
 * is false when the connection was never initialised; every operation
 * then takes its "Database connection not initialized" branch.
 */
module Database {
  import opened Wrappers
  import opened Listing

  /** Defaults of `add_user` and the fallback of `get_user_timezone`. */
  const DefaultHour: int := 9
  const DefaultTimezone: string := "Europe/Moscow"

  /** The non-key columns of a `users` row. */
  datatype Subscription = Subscription(dailyCatTime: int, timezone: string)

  /** What an insert-if-absent did: the duplicate case is the caught UNIQUE error. */
  datatype AddStatus = Inserted | AlreadyPresent | NoConnection

  class Connection {
    var connected: bool
    var users: map<int, Subscription>
    var botUsers: map<int, Timestamp>

    /** A handle on empty tables, initialised or not. */
    constructor (connected: bool)
      ensures this.connected == connected && users == map[] && botUsers == map[]
    {
      this.connected := connected;
      users := map[];
      botUsers := map[];
    }

    // ---------------------------------------------------------------
    // database/users.py

    /** `is_user_subscribed`: a row with that key exists. */
    function IsUserSubscribed(u: int): (r: bool)
      reads this
      ensures r <==> connected && u in users
    {
      connected && u in users
    }

    /**
     * `add_user`: insert-if-absent.  A duplicate key is reported and the
     * existing row keeps its hour and timezone.
     */
    method AddUser(u: int, dailyCatTime: int := DefaultHour, timezone: string := DefaultTimezone)
      returns (status: AddStatus)
      modifies this`users
      ensures status == if !connected then NoConnection
                        else if u in old(users) then AlreadyPresent
                        else Inserted
      ensures status == Inserted ==> users == old(users)[u := Subscription(dailyCatTime, timezone)]
      ensures status != Inserted ==> users == old(users)
      ensures connected ==> IsUserSubscribed(u)
      ensures old(IsUserSubscribed(u)) ==> GetUserTimezone(u) == old(GetUserTimezone(u))
      ensures status == Inserted ==> (u, dailyCatTime, timezone) in GetUsersWithTimes()
    {
      if !connected {
        return NoConnection;
      }
      if u in users {
        return AlreadyPresent;
      }
      users := users[u := Subscription(dailyCatTime, timezone)];
      status := Inserted;
      var ids := GetAllUsers();
      assert u in ids;
      var i :| 0 <= i < |ids| && ids[i] == u;
      assert GetUsersWithTimes()[i] == (u, dailyCatTime, timezone);
    }

    /** `remove_user`: unconditional delete; a second call changes nothing. */
    method RemoveUser(u: int)
      modifies this`users
      ensures users == if connected then old(users) - {u} else old(users)
      ensures !IsUserSubscribed(u)
      ensures forall v :: v != u ==> IsUserSubscribed(v) == old(IsUserSubscribed(v))
      ensures u !in old(users) ==> users == old(users)
    {
      if connected {
        users := users - {u};
      }
    }

    /** `get_all_users`: every subscribed id once. */
    function GetAllUsers(): (ids: seq<int>)
      reads this
      ensures forall v :: v in ids <==> IsUserSubscribed(v)
      ensures StrictlyIncreasing(ids)
      ensures connected ==> |ids| == |users|
    {
      if connected then Ascending(users.Keys) else []
    }

    /** `get_users_with_times`: one (user_id, daily_cat_time, timezone) per row. */
    function GetUsersWithTimes(): (rows: seq<(int, int, string)>)
      reads this
      ensures |rows| == |GetAllUsers()|
      ensures forall i :: 0 <= i < |rows| ==>
                rows[i].0 == GetAllUsers()[i] && rows[i].0 in users &&
                rows[i].1 == users[rows[i].0].dailyCatTime && rows[i].2 == GetUserTimezone(rows[i].0)
    {
      var table := users;
      var ids := GetAllUsers();
      seq(|ids|, i requires 0 <= i < |ids| && ids[i] in table =>
        (ids[i], table[ids[i]].dailyCatTime, table[ids[i]].timezone))
    }

    /** `update_user_time`: only that user's hour changes; no range check. */
    method UpdateUserTime(u: int, dailyCatTime: int)
      modifies this`users
      ensures users == if old(IsUserSubscribed(u))
                       then old(users)[u := old(users)[u].(dailyCatTime := dailyCatTime)]
                       else old(users)
      ensures GetUserTimezone(u) == old(GetUserTimezone(u))
    {
      if connected && u in users {
        users := users[u := users[u].(dailyCatTime := dailyCatTime)];
      }
    }

    /** `get_user_timezone`: the stored timezone, or the default. */
    function GetUserTimezone(u: int): (tz: string)
      reads this
      ensures IsUserSubscribed(u) ==> tz == users[u].timezone
      ensures !IsUserSubscribed(u) ==> tz == DefaultTimezone
    {
      if connected && u in users then users[u].timezone else DefaultTimezone
    }

    /** `update_user_timezone`: only that user's timezone changes. */
    method UpdateUserTimezone(u: int, timezone: string)
      modifies this`users
      ensures users == if old(IsUserSubscribed(u))
                       then old(users)[u := old(users)[u].(timezone := timezone)]
                       else old(users)
      ensures IsUserSubscribed(u) ==> GetUserTimezone(u) == timezone
    {
      if connected && u in users {
        users := users[u := users[u].(timezone := timezone)];
      }
    }

    // ---------------------------------------------------------------
    // database/bot_users.py

    /** `is_bot_user`: the user has a `bot_users` row. */
    function IsBotUser(u: int): (r: bool)
      reads this
      ensures r <==> connected && u in botUsers
    {
      connected && u in botUsers
    }

    /**
     * `add_bot_user`: insert-if-absent of the id alone.  `first_used_at` is
     * filled by the column's default, assumed to be CURRENT_TIMESTAMP;
     * `now` is that assumed default value.
     */
    method AddBotUser(u: int, now: Timestamp) returns (status: AddStatus)
      modifies this`botUsers
      ensures status == if !connected then NoConnection
                        else if u in old(botUsers) then AlreadyPresent
                        else Inserted
      ensures status == Inserted ==> botUsers == old(botUsers)[u := now]
      ensures status != Inserted ==> botUsers == old(botUsers)
      ensures connected ==> IsBotUser(u)
      ensures connected ==> GetFirstUsedAt(u) == if old(IsBotUser(u)) then old(GetFirstUsedAt(u)) else Some(now)
      ensures forall v :: v != u ==> GetFirstUsedAt(v) == old(GetFirstUsedAt(v))
    {
      if !connected {
        return NoConnection;
      }
      if u in botUsers {
        return AlreadyPresent;
      }
      botUsers := botUsers[u := now];
      status := Inserted;
    }

    /** `get_all_bot_users`: every id in `bot_users` once. */
    function GetAllBotUsers(): (ids: seq<int>)
      reads this
      ensures forall v :: v in ids <==> IsBotUser(v)
      ensures StrictlyIncreasing(ids)
      ensures connected ==> |ids| == |botUsers|
    {
      if connected then Ascending(botUsers.Keys) else []
    }

    /** `get_non_subscribed_bot_users`: the LEFT JOIN ... IS NULL, a set difference. */
    function GetNonSubscribedBotUsers(): (ids: seq<int>)
      reads this
      ensures forall v :: v in ids <==> IsBotUser(v) && !IsUserSubscribed(v)
      ensures StrictlyIncreasing(ids)
    {
      if connected then Ascending(botUsers.Keys - users.Keys) else []
    }

    /** `get_first_used_at`: the stored timestamp, or None. */
    function GetFirstUsedAt(u: int): (t: Option<Timestamp>)
      reads this
      ensures t.Some? <==> IsBotUser(u)
      ensures t.Some? ==> t.value == botUsers[u]
    {
      if connected && u in botUsers then Some(botUsers[u]) else None
    }
  }
}
