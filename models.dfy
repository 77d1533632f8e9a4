/**
 * Row decoders of database/models.py.  A row is what the database driver
 * hands back: a tuple of cells, each an integer, a text or NULL.  The
 * dataclasses do not check the types of their fields, so the decoded
 * records hold cells as well.
 */
module Models {

  datatype SqlValue = Int(i: int) | Text(s: string) | Null

  type Row = seq<SqlValue>

  /** Defaults of the `User` dataclass fields. */
  const DefaultDailyCatTime: SqlValue := Int(9)
  const DefaultTimezone: SqlValue := Text("UTC")

  datatype User = User(userId: SqlValue, subscribedAt: SqlValue, dailyCatTime: SqlValue, timezone: SqlValue)

  datatype BotUser = BotUser(userId: SqlValue, firstUsedAt: SqlValue)

  /** `ValueError` raised by a decoder. */
  datatype DecodeError = InvalidRowFormat(row: Row) | WrongNumberOfValues(got: nat)

  datatype Decoded<T> = Ok(value: T) | Err(error: DecodeError)

  /**
   * `User.from_row`: a two-cell row is (user_id, subscribed_at), a
   * three-cell row adds daily_cat_time; any other length is rejected.
   * No row shape carries a timezone, so every decoded user has "UTC".
   */
  function UserFromRow(row: Row): (r: Decoded<User>)
    ensures r.Ok? <==> |row| == 2 || |row| == 3
    ensures r.Err? ==> r.error == InvalidRowFormat(row)
    ensures r.Ok? ==> r.value.userId == row[0] && r.value.subscribedAt == row[1]
    ensures r.Ok? ==> r.value.dailyCatTime == (if |row| == 3 then row[2] else DefaultDailyCatTime)
    ensures r.Ok? ==> r.value.timezone == DefaultTimezone
  {
    if |row| == 2 then
      Ok(User(userId := row[0], subscribedAt := row[1], dailyCatTime := DefaultDailyCatTime, timezone := DefaultTimezone))
    else if |row| == 3 then
      Ok(User(userId := row[0], subscribedAt := row[1], dailyCatTime := row[2], timezone := DefaultTimezone))
    else
      Err(InvalidRowFormat(row))
  }

  /** The three-cell row a user is stored as (timezone is not a column of it). */
  function UserToRow(u: User): (row: Row)
    ensures |row| == 3
  {
    [u.userId, u.subscribedAt, u.dailyCatTime]
  }

  /** Decoding a stored row and storing the result again gives the same row. */
  lemma RowRoundTrip(row: Row)
    requires |row| == 3
    ensures UserFromRow(row).Ok? && UserToRow(UserFromRow(row).value) == row
  {
  }

  /**
   * Storing a user and decoding the row gives the user back exactly when its
   * timezone is the default: the decoder cannot recover any other timezone.
   */
  lemma UserRoundTrip(u: User)
    ensures UserFromRow(UserToRow(u)) == Ok(u) <==> u.timezone == DefaultTimezone
  {
  }

  /**
   * `BotUser.from_row`: tuple unpacking into two names, which raises
   * `ValueError` for any row that does not have exactly two cells.
   */
  function BotUserFromRow(row: Row): (r: Decoded<BotUser>)
    ensures r.Ok? <==> |row| == 2
    ensures r.Ok? ==> r.value.userId == row[0] && r.value.firstUsedAt == row[1]
    ensures r.Err? ==> r.error == WrongNumberOfValues(|row|)
  {
    if |row| == 2 then Ok(BotUser(userId := row[0], firstUsedAt := row[1]))
    else Err(WrongNumberOfValues(|row|))
  }

  /** A bot user survives being written as a pair and decoded again. */
  lemma BotUserRoundTrip(b: BotUser)
    ensures BotUserFromRow([b.userId, b.firstUsedAt]) == Ok(b)
  {
  }
}
