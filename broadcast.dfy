/**
 * What one run of `send_daily_cats` does, stated on values.  Both versions
 * of the tick (scheduler.py and services/scheduler.py) take a snapshot of
 * the subscriber ids, fetch one image, and then try every id of the
 * snapshot in order.  The Telegram send for a chat ends in one of four
 * ways; Forbidden and BadRequest make the tick delete that subscriber.
 */
module Broadcast {
  import opened Wrappers

  /** How `bot.send_photo` ended for one chat. */
  datatype Outcome = Delivered | Forbidden | BadRequest | OtherError

  /** TelegramForbiddenError or TelegramBadRequest: the user is dropped. */
  predicate Permanent(o: Outcome)
  {
    o.Forbidden? || o.BadRequest?
  }

  /**
   * How a tick ended: aborted for want of an image, an exception escaped
   * it, or it went through the snapshot; `attempted` lists the chats sent
   * to, in order.
   */
  datatype Report = Aborted | Raised | Finished(attempted: seq<int>, sentCount: nat)

  /** `not image_url`: no URL at all, or an empty one. */
  predicate ImageMissing(image: Option<string>)
  {
    image.None? || image.value == ""
  }

  /** The number of successful sends to `ids`: the final `sent_count`. */
  function SentCount(ids: seq<int>, send: int -> Outcome): (n: nat)
    ensures n <= |ids|
    ensures n == |ids| <==> forall i :: 0 <= i < |ids| ==> send(ids[i]) == Delivered
    decreases |ids|
  {
    if ids == [] then 0
    else
      var prefix := ids[..|ids| - 1];
      SentCount(prefix, send) + (if send(ids[|ids| - 1]) == Delivered then 1 else 0)
  }

  /** The ids of `ids` whose send ended in a permanent refusal. */
  function Refused(ids: seq<int>, send: int -> Outcome): (r: set<int>)
    ensures forall x :: x in r <==> x in ids && Permanent(send(x))
  {
    set x | x in ids && Permanent(send(x))
  }

  /**
   * The table after the tick has gone through `ids`: each id whose send was
   * refused is deleted when its turn comes; nothing else is touched.
   */
  function Reconcile<V>(m: map<int, V>, ids: seq<int>, send: int -> Outcome): (r: map<int, V>)
    ensures r.Keys <= m.Keys
    ensures forall x :: x in r ==> r[x] == m[x]
    decreases |ids|
  {
    if ids == [] then m
    else
      var prev := Reconcile(m, ids[..|ids| - 1], send);
      var x := ids[|ids| - 1];
      if Permanent(send(x)) then prev - {x} else prev
  }

  /** One more attempt: the count grows by one exactly on a delivery. */
  lemma SentCountStep(ids: seq<int>, x: int, send: int -> Outcome)
    ensures SentCount(ids + [x], send) == SentCount(ids, send) + (if send(x) == Delivered then 1 else 0)
  {
  }

  /** One more attempt: the row goes exactly when the send was refused. */
  lemma ReconcileStep<V>(m: map<int, V>, ids: seq<int>, x: int, send: int -> Outcome)
    ensures Reconcile(m, ids + [x], send) ==
            if Permanent(send(x)) then Reconcile(m, ids, send) - {x} else Reconcile(m, ids, send)
  {
  }

  /** Going through the snapshot one id at a time removes exactly the refused set. */
  lemma {:induction false} ReconcileIsRemoval<V>(m: map<int, V>, ids: seq<int>, send: int -> Outcome)
    ensures Reconcile(m, ids, send) == m - Refused(ids, send)
    decreases |ids|
  {
    if ids == [] {
      assert Refused(ids, send) == {};
    } else {
      var prefix, x := ids[..|ids| - 1], ids[|ids| - 1];
      assert ids == prefix + [x];
      ReconcileIsRemoval(m, prefix, send);
      if Permanent(send(x)) {
        assert Refused(ids, send) == Refused(prefix, send) + {x};
      } else {
        assert Refused(ids, send) == Refused(prefix, send);
      }
    }
  }

  /**
   * The fate of one id: refused in the snapshot means gone; any other id,
   * delivered, failed for another reason or outside the snapshot, keeps
   * its row exactly as it was.
   */
  lemma {:induction false} TickFate<V>(m: map<int, V>, ids: seq<int>, send: int -> Outcome, x: int)
    ensures x in ids && Permanent(send(x)) ==> x !in Reconcile(m, ids, send)
    ensures !(x in ids && Permanent(send(x))) ==>
              (x in Reconcile(m, ids, send) <==> x in m) &&
              (x in m ==> Reconcile(m, ids, send)[x] == m[x])
  {
    ReconcileIsRemoval(m, ids, send);
  }

  /**
   * When the snapshot lists only stored ids, the ids the tick deletes are
   * exactly those with a permanent refusal.
   */
  lemma {:induction false} RemovedExactlyRefused<V>(m: map<int, V>, ids: seq<int>, send: int -> Outcome)
    requires forall x :: x in ids ==> x in m
    ensures m.Keys - Reconcile(m, ids, send).Keys == Refused(ids, send)
  {
    ReconcileIsRemoval(m, ids, send);
    var refused := Refused(ids, send);
    assert (m - refused).Keys == m.Keys - refused;
    forall x | x in refused ensures x in m {
      assert x in ids;
    }
  }
}
