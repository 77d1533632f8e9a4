/**
 * `send_daily_cats` of services/scheduler.py, run on every hourly tick.
 * The image fetch is the `image` input and the Telegram send is `send`;
 * every subscriber is sent to, with no filter on hour or timezone.
 */
module Dispatch {
  import opened Wrappers
  import opened Database
  import opened Broadcast

  method SendDailyCats(db: Connection, image: Option<string>, send: int -> Outcome) returns (report: Report)
    modifies db`users
    ensures ImageMissing(image) ==> report == Aborted && db.users == old(db.users)
    ensures !ImageMissing(image) ==>
              var snapshot := old(db.GetAllUsers());
              && report == Finished(snapshot, SentCount(snapshot, send))
              && db.users == Reconcile(old(db.users), snapshot, send)
              && db.users == old(db.users) - Refused(snapshot, send)
  {
    var users := db.GetAllUsers();
    if ImageMissing(image) {
      return Aborted;
    }
    var attempted, sentCount := SendToEach(db, users, send);
    ReconcileIsRemoval(old(db.users), users, send);
    report := Finished(attempted, sentCount);
  }

  /**
   * The `for user_id in users` loop: one send per id, in order; a refused
   * send deletes that subscriber, any other failure is only logged.
   */
  method SendToEach(db: Connection, users: seq<int>, send: int -> Outcome)
    returns (attempted: seq<int>, sentCount: nat)
    requires db.connected || users == []
    modifies db`users
    ensures attempted == users
    ensures sentCount == SentCount(users, send)
    ensures db.users == Reconcile(old(db.users), users, send)
  {
    attempted, sentCount := [], 0;
    for i := 0 to |users|
      invariant attempted == users[..i]
      invariant sentCount == SentCount(users[..i], send)
      invariant db.users == Reconcile(old(db.users), users[..i], send)
    {
      var userId := users[i];
      assert users[..i + 1] == users[..i] + [userId];
      SentCountStep(users[..i], userId, send);
      ReconcileStep(old(db.users), users[..i], userId, send);
      attempted := attempted + [userId];
      match send(userId)
      case Delivered =>
        sentCount := sentCount + 1;
      case Forbidden =>
        db.RemoveUser(userId);
      case BadRequest =>
        db.RemoveUser(userId);
      case OtherError =>
    }
    assert users[..|users|] == users;
  }

  /**
   * A worked example of the loop's effect `Reconcile`: in a table holding
   * subscribers 7 and 8, where 7 has blocked the bot and 8 hits a network
   * error, 7 is dropped and 8 keeps its hour and timezone.  The statement
   * for any user is `Broadcast.TickFate`.
   */
  lemma BlockedUserDroppedTransientKept(send: int -> Outcome)
    requires send(7) == Forbidden && send(8) == OtherError
    ensures var m := map[7 := Subscription(9, "Europe/Moscow"), 8 := Subscription(9, "Europe/Moscow")];
            var after := Reconcile(m, [7, 8], send);
            7 !in after && 8 in after && after[8] == m[8]
  {
  }
}
