/** The notification routes of `backend/routes/notifications.js`: every signed-in caller
    reads, marks and clears its own notifications, and only its own. */
module NotificationRoutes {
  import opened Wrappers
  import opened Seqs
  import opened Entities
  import opened MemoryDb
  import opened Access

  // ----- Error messages --------------------------------------------------------------------

  const NotificationNotFound := "Notification not found"

  /** The number of unread notifications: `notifications.filter(n => !n.read).length`. */
  function Unread(ns: seq<Notification>): (r: nat)
    ensures r <= |ns|
    ensures r == 0 <==> forall i :: 0 <= i < |ns| ==> ns[i].read
  {
    if |ns| == 0 then 0 else (if ns[0].read then 0 else 1) + Unread(ns[1..])
  }

  lemma {:induction false} UnreadAppend(a: seq<Notification>, b: seq<Notification>)
    ensures Unread(a + b) == Unread(a) + Unread(b)
  {
    if |a| > 0 {
      assert (a + b)[1..] == a[1..] + b;
      UnreadAppend(a[1..], b);
    } else {
      assert a + b == b;
    }
  }

  /** The count does not depend on the order: any rearrangement has as many unread. */
  lemma {:induction false} UnreadPermutation(a: seq<Notification>, b: seq<Notification>)
    requires multiset(a) == multiset(b)
    ensures Unread(a) == Unread(b)
    decreases |a|
  {
    if |a| == 0 {
      assert |multiset(b)| == 0;
    } else {
      assert a[0] in multiset(b);
      var k :| 0 <= k < |b| && b[k] == a[0];
      var rest := b[..k] + b[k + 1..];
      assert b == b[..k] + [b[k]] + b[k + 1..];
      assert a == [a[0]] + a[1..];
      assert multiset(b) == multiset(b[..k]) + multiset{b[k]} + multiset(b[k + 1..]);
      assert multiset(rest) == multiset(b[..k]) + multiset(b[k + 1..]);
      assert multiset(a) == multiset{a[0]} + multiset(a[1..]);
      assert multiset(rest) == multiset(b) - multiset{b[k]};
      assert multiset(a[1..]) == multiset(a) - multiset{a[0]};
      UnreadPermutation(a[1..], rest);
      UnreadAppend(b[..k] + [b[k]], b[k + 1..]);
      UnreadAppend(b[..k], [b[k]]);
      UnreadAppend(b[..k], b[k + 1..]);
    }
  }

  // ----- GET /api/notifications ------------------------------------------------------------

  datatype Inbox = Inbox(notifications: seq<Notification>, unread: nat)

  /** `GET /api/notifications`: the caller's notifications newest first, and how many of
      them are unread. */
  function GetInbox(db: MemoryDatabase, token: Token): (r: Response<Inbox>)
    reads db
    ensures VerifyToken(db, token).Err? ==> r == Err(VerifyToken(db, token).error)
    ensures r.Ok? <==> VerifyToken(db, token).Ok?
    ensures r.Ok? ==> && NewestFirst(r.value.notifications)
                      && multiset(r.value.notifications) == multiset(OwnedBy(db.notifications, token.id))
                      && r.value.unread == Unread(OwnedBy(db.notifications, token.id))
  {
    match VerifyToken(db, token)
    case Err(e) => Err(e)
    case Ok(p) =>
      var ns := db.GetNotificationsByUserId(p.id);
      UnreadPermutation(ns, OwnedBy(db.notifications, p.id));
      Ok(Inbox(ns, Unread(ns)))
  }

  // ----- PUT /api/notifications/:id/read ---------------------------------------------------

  /** `PUT /api/notifications/:id/read`: marks the caller's notification `id` read; 404 when
      the caller has no notification with that id, whoever else may have one. */
  method MarkRead(db: MemoryDatabase, token: Token, id: int, now: int)
    returns (r: Response<Notification>)
    requires db.NotificationsValid()
    modifies db`notifications
    ensures db.NotificationsValid()
    ensures old(VerifyToken(db, token)).Err? ==> r == Err(old(VerifyToken(db, token)).error)
    ensures r.Err? ==> unchanged(db)
    ensures old(VerifyToken(db, token)).Ok?
            ==> var k := NoticeIndex(old(db.notifications), id, token.id);
                if k < 0 then r == Fail(404, NotificationNotFound)
                else && r == Ok(old(db.notifications)[k].(read := true, readAt := Some(now)))
                     && db.notifications == old(db.notifications)[k := r.value]
  {
    var v := VerifyToken(db, token);
    if v.Err? {
      return Err(v.error);
    }
    var n := db.MarkNotificationAsRead(id, v.value.id, now);
    if n.None? {
      return Fail(404, NotificationNotFound);
    }
    r := Ok(n.value);
  }

  // ----- PUT /api/notifications/read-all ---------------------------------------------------

  /** `PUT /api/notifications/read-all`: afterwards none of the caller's notifications is
      unread, and every other user's notifications are as they were. */
  method ReadAll(db: MemoryDatabase, token: Token, now: int) returns (r: Response<()>)
    requires db.NotificationsValid()
    modifies db`notifications
    ensures db.NotificationsValid()
    ensures old(VerifyToken(db, token)).Err? ==> r == Err(old(VerifyToken(db, token)).error)
    ensures r.Err? ==> unchanged(db)
    ensures r.Ok? <==> old(VerifyToken(db, token)).Ok?
    ensures r.Ok? ==> Unread(OwnedBy(db.notifications, token.id)) == 0
    ensures r.Ok? ==> && |db.notifications| == |old(db.notifications)|
                      && forall i :: 0 <= i < |db.notifications| ==>
                           if old(db.notifications)[i].userId == token.id
                           then db.notifications[i] == old(db.notifications)[i].(read := true,
                                                                               readAt := Some(now))
                           else db.notifications[i] == old(db.notifications)[i]
  {
    var v := VerifyToken(db, token);
    if v.Err? {
      return Err(v.error);
    }
    db.MarkAllNotificationsAsRead(v.value.id, now);
    var mine := OwnedBy(db.notifications, token.id);
    assert forall i :: 0 <= i < |mine| ==> mine[i].read;
    r := Ok(());
  }

  // ----- DELETE /api/notifications ---------------------------------------------------------

  /** `DELETE /api/notifications`: removes exactly the caller's notifications. */
  method Clear(db: MemoryDatabase, token: Token) returns (r: Response<()>)
    requires db.NotificationsValid()
    modifies db`notifications
    ensures db.NotificationsValid()
    ensures old(VerifyToken(db, token)).Err? ==> r == Err(old(VerifyToken(db, token)).error)
    ensures r.Err? ==> unchanged(db)
    ensures r.Ok? <==> old(VerifyToken(db, token)).Ok?
    ensures r.Ok? ==> && OwnedBy(db.notifications, token.id) == []
                      && forall i :: 0 <= i < |old(db.notifications)| && old(db.notifications)[i].userId != token.id
                           ==> old(db.notifications)[i] in db.notifications
    ensures r.Ok? ==> db.notifications == Filter(old(db.notifications), (n: Notification) => n.userId != token.id)
  {
    var v := VerifyToken(db, token);
    if v.Err? {
      return Err(v.error);
    }
    db.ClearAllNotifications(v.value.id);
    FilterNone(db.notifications, (n: Notification) => n.userId == token.id);
    r := Ok(());
  }
}
