/** `NotificationService` of `backend/utils/notifications.js`: builds the notifications of
    four events and stores them for their recipient. The push itself is simulated by the
    source (a log line); it is not modelled, and neither is the log. The service keeps no
    state of its own besides a constant flag, so its operations are stated on the store. */
module NotificationService {
  import opened Wrappers
  import opened Text
  import opened Entities
  import opened MemoryDb

  /** The `notification` object a sender hands to `sendPushNotification`. */
  datatype Notice = Notice(title: string, message: string, kind: string, metadata: Option<Fields>)

  /** What `sendPushNotification(n, userId)` stores: `metadata` defaults to `{}`. */
  function StoredDraft(n: Notice, userId: int): (d: NotificationDraft)
    ensures d.userId == userId && d.title == n.title && d.message == n.message && d.kind == n.kind
    ensures d.metadata.Some? && (n.metadata.None? ==> d.metadata.value == map[])
    ensures d.createdAt.None? && d.read.None?
  {
    NotificationDraft(None, None, userId, n.title, n.message, n.kind, Some(n.metadata.GetOr(map[])))
  }

  /** `sendPushNotification`: `false`, and nothing stored, without a notification, without
      a user id (0) or for an unknown user; otherwise `true` and one `createNotification`
      call, which may still drop the notification as a duplicate. */
  method SendPushNotification(db: MemoryDatabase, n: Option<Notice>, userId: int, now: int)
    returns (ok: bool)
    requires db.NotificationsValid()
    modifies db`notifications, db`nextNotificationId
    ensures db.NotificationsValid()
    ensures ok <==> n.Some? && userId != 0 && old(db.GetUserById(userId)).Some?
    ensures !ok ==> unchanged(db)
    ensures ok ==> Notified(old(db.notifications), old(db.nextNotificationId), db.notifications,
                            db.nextNotificationId, StoredDraft(n.value, userId), now)
  {
    if n.None? || userId == 0 {
      return false;
    }
    if db.GetUserById(userId).None? {
      return false;
    }
    var _ := db.CreateNotification(StoredDraft(n.value, userId), now);
    ok := true;
  }

  // ----- The four events -------------------------------------------------------------------

  function OrderUpdateNotice(o: Order): Notice {
    Notice("Order Status Updated",
           "Your order #" + IntToString(o.id) + " status has been updated to: " + o.status,
           "order_update", Some(map["orderId" := Num(o.id), "status" := Str(o.status)]))
  }

  function PaymentUpdateNotice(p: Payment): Notice {
    Notice("Payment Status Updated",
           "Your payment of " + FormatAmount(p.amount) + " JD has been updated to: " + p.status,
           "payment_update", Some(map["paymentId" := Num(p.id), "status" := Str(p.status)]))
  }

  function NewOrderNotice(o: Order): Notice {
    Notice("New Order Received",
           "You have received a new order #" + IntToString(o.id) + " from " + o.pharmacyName,
           "new_order", Some(map["orderId" := Num(o.id)]))
  }

  function DueReminderNotice(p: Payment): Notice {
    Notice("Payment Due Reminder",
           "Your payment of " + FormatAmount(p.amount) + " JD is due soon",
           "payment_reminder",
           Some(map["paymentId" := Num(p.id),
                    "dueDate" := if p.dueDate.Some? then Num(p.dueDate.value) else Null]))
  }

  /** `sendOrderStatusUpdate`: tells the order's pharmacy its new status. */
  method SendOrderStatusUpdate(db: MemoryDatabase, o: Order, now: int) returns (ok: bool)
    requires db.NotificationsValid()
    modifies db`notifications, db`nextNotificationId
    ensures db.NotificationsValid()
    ensures ok <==> o.pharmacyId != 0 && old(db.GetUserById(o.pharmacyId)).Some?
    ensures !ok ==> unchanged(db)
    ensures ok ==> Notified(old(db.notifications), old(db.nextNotificationId), db.notifications,
                            db.nextNotificationId, StoredDraft(OrderUpdateNotice(o), o.pharmacyId), now)
  {
    ok := SendPushNotification(db, Some(OrderUpdateNotice(o)), o.pharmacyId, now);
  }

  /** `sendPaymentStatusUpdate`: tells the payment's pharmacy its new status. */
  method SendPaymentStatusUpdate(db: MemoryDatabase, p: Payment, now: int) returns (ok: bool)
    requires db.NotificationsValid()
    modifies db`notifications, db`nextNotificationId
    ensures db.NotificationsValid()
    ensures ok <==> p.pharmacyId != 0 && old(db.GetUserById(p.pharmacyId)).Some?
    ensures !ok ==> unchanged(db)
    ensures ok ==> Notified(old(db.notifications), old(db.nextNotificationId), db.notifications,
                            db.nextNotificationId, StoredDraft(PaymentUpdateNotice(p), p.pharmacyId), now)
  {
    ok := SendPushNotification(db, Some(PaymentUpdateNotice(p)), p.pharmacyId, now);
  }

  /** `sendNewOrderNotification`: tells the order's distributor of the new order. */
  method SendNewOrderNotification(db: MemoryDatabase, o: Order, now: int) returns (ok: bool)
    requires db.NotificationsValid()
    modifies db`notifications, db`nextNotificationId
    ensures db.NotificationsValid()
    ensures ok <==> o.distributorId != 0 && old(db.GetUserById(o.distributorId)).Some?
    ensures !ok ==> unchanged(db)
    ensures ok ==> Notified(old(db.notifications), old(db.nextNotificationId), db.notifications,
                            db.nextNotificationId, StoredDraft(NewOrderNotice(o), o.distributorId), now)
  {
    ok := SendPushNotification(db, Some(NewOrderNotice(o)), o.distributorId, now);
  }

  /** `sendPaymentDueReminder`: reminds the payment's pharmacy that it is due. */
  method SendPaymentDueReminder(db: MemoryDatabase, p: Payment, now: int) returns (ok: bool)
    requires db.NotificationsValid()
    modifies db`notifications, db`nextNotificationId
    ensures db.NotificationsValid()
    ensures ok <==> p.pharmacyId != 0 && old(db.GetUserById(p.pharmacyId)).Some?
    ensures !ok ==> unchanged(db)
    ensures ok ==> Notified(old(db.notifications), old(db.nextNotificationId), db.notifications,
                            db.nextNotificationId, StoredDraft(DueReminderNotice(p), p.pharmacyId), now)
  {
    ok := SendPushNotification(db, Some(DueReminderNotice(p)), p.pharmacyId, now);
  }

  /** A reminder sent twice within the dedup window is stored at most once. */
  lemma ReminderStoredOnce(ns0: seq<Notification>, next0: int, ns1: seq<Notification>, next1: int,
                           ns2: seq<Notification>, next2: int, p: Payment, now: int, later: int)
    requires Notified(ns0, next0, ns1, next1, StoredDraft(DueReminderNotice(p), p.pharmacyId), now)
    requires Notified(ns1, next1, ns2, next2, StoredDraft(DueReminderNotice(p), p.pharmacyId), later)
    requires now <= later < now + DedupWindow
    ensures |ns2| <= |ns0| + 1
  {
    AtMostOnceWithinWindow(ns0, next0, ns1, next1, ns2, next2,
                           StoredDraft(DueReminderNotice(p), p.pharmacyId), now, later);
  }
}
