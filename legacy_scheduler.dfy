/**
 * `send_daily_cats` of the older scheduler.py, over the store of
 * cat_bot/database.py.  `get_cat_image_url` is the `image` input and the
 * Telegram send is `send`.  If the table is missing, `get_all_users`
 * raises before anything is fetched or sent.
 */
module LegacyScheduler {
  import opened Wrappers
  import opened LegacyStore
  import opened Broadcast

  method SendDailyCats(db: SubscriberDb, image: Option<string>, send: int -> Outcome) returns (report: Report)
    modifies db`rows
    ensures !db.tableExists ==> report == Raised && db.rows == old(db.rows)
    ensures db.tableExists && ImageMissing(image) ==> report == Aborted && db.rows == old(db.rows)
    ensures db.tableExists && !ImageMissing(image) ==>
              var snapshot := old(db.GetAllUsers()).value;
              && report == Finished(snapshot, SentCount(snapshot, send))
              && db.rows == Reconcile(old(db.rows), snapshot, send)
              && db.rows == old(db.rows) - Refused(snapshot, send)
  {
    var listed := db.GetAllUsers();
    if listed.None? {
      return Raised;
    }
    var users := listed.value;
    if ImageMissing(image) {
      return Aborted;
    }
    var attempted, sentCount := SendToEach(db, users, send);
    ReconcileIsRemoval(old(db.rows), users, send);
    report := Finished(attempted, sentCount);
  }

  /**
   * The `for user_id in users` loop: one send per id, in order; a refused
   * send deletes that subscriber, any other failure is only logged.
   */
  method SendToEach(db: SubscriberDb, users: seq<int>, send: int -> Outcome)
    returns (attempted: seq<int>, sentCount: nat)
    requires db.tableExists
    modifies db`rows
    ensures attempted == users
    ensures sentCount == SentCount(users, send)
    ensures db.rows == Reconcile(old(db.rows), users, send)
  {
    attempted, sentCount := [], 0;
    for i := 0 to |users|
      invariant attempted == users[..i]
      invariant sentCount == SentCount(users[..i], send)
      invariant db.rows == Reconcile(old(db.rows), users[..i], send)
    {
      var userId := users[i];
      assert users[..i + 1] == users[..i] + [userId];
      SentCountStep(users[..i], userId, send);
      ReconcileStep(old(db.rows), users[..i], userId, send);
      attempted := attempted + [userId];
      match send(userId)
      case Delivered =>
        sentCount := sentCount + 1;
      case Forbidden =>
        var _ := db.RemoveUser(userId);
      case BadRequest =>
        var _ := db.RemoveUser(userId);
      case OtherError =>
    }
    assert users[..|users|] == users;
  }
}
