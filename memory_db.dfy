/** The in-memory store of `backend/models/memoryDb.js`: six tables, each with its own id
    counter, and the query and update operations the routes call. */
module MemoryDb {
  import opened Wrappers
  import opened Seqs
  import opened Entities
  import Seed

  /** Two identical notifications closer together than five minutes are one. */
  const DedupWindow := 5 * 60 * 1000

  // ----- Notification rules, stated on values ---------------------------------------------

  /** `n` repeats the notification `d` would create at time `now`. */
  predicate SameNotice(n: Notification, d: NotificationDraft, now: int) {
    && n.userId == d.userId && n.title == d.title && n.message == d.message
    && n.kind == d.kind && now - n.createdAt < DedupWindow
  }

  predicate IsDuplicate(ns: seq<Notification>, d: NotificationDraft, now: int) {
    exists i :: 0 <= i < |ns| && SameNotice(ns[i], d, now)
  }

  /** The notification table goes from `ns0` (counter `next0`) to `ns1` (counter `next1`)
      by one `createNotification(d)` at time `now`. */
  ghost predicate Notified(ns0: seq<Notification>, next0: int, ns1: seq<Notification>,
                           next1: int, d: NotificationDraft, now: int) {
    if IsDuplicate(ns0, d, now) then ns1 == ns0 && next1 == next0
    else ns1 == ns0 + [NewNotification(next0, now, d)] && next1 == next0 + 1
  }

  /** A notification stored at `now` suppresses the same notification sent again within
      the window. */
  lemma RepeatWithinWindowSuppressed(ns0: seq<Notification>, next0: int,
                                     ns1: seq<Notification>, next1: int,
                                     d: NotificationDraft, now: int, later: int)
    requires d.createdAt.None? && !IsDuplicate(ns0, d, now)
    requires Notified(ns0, next0, ns1, next1, d, now)
    requires now <= later < now + DedupWindow
    ensures IsDuplicate(ns1, d, later)
  {
    assert SameNotice(ns1[|ns0|], d, later);
  }

  /** Sending the same notification twice within the window stores it at most once. */
  lemma AtMostOnceWithinWindow(ns0: seq<Notification>, next0: int,
                               ns1: seq<Notification>, next1: int,
                               ns2: seq<Notification>, next2: int,
                               d: NotificationDraft, now: int, later: int)
    requires d.createdAt.None?
    requires Notified(ns0, next0, ns1, next1, d, now)
    requires Notified(ns1, next1, ns2, next2, d, later)
    requires now <= later < now + DedupWindow
    ensures |ns2| <= |ns0| + 1
  {
    if !IsDuplicate(ns0, d, now) {
      RepeatWithinWindowSuppressed(ns0, next0, ns1, next1, d, now, later);
    }
  }

  /** The test of `markNotificationAsRead`: the notification `id`, provided it belongs to
      `userId`. */
  function NoticeIndex(ns: seq<Notification>, id: int, userId: int): (k: int)
    ensures -1 <= k < |ns|
    ensures 0 <= k ==> ns[k].id == id && ns[k].userId == userId
    ensures k < 0 <==> forall j :: 0 <= j < |ns| ==> !(ns[j].id == id && ns[j].userId == userId)
  {
    FindIndex(ns, (n: Notification) => n.id == id && n.userId == userId)
  }

  /** The notifications of one user, in table order. */
  function OwnedBy(ns: seq<Notification>, userId: int): (r: seq<Notification>)
    ensures |r| <= |ns|
    ensures forall i :: 0 <= i < |r| ==> r[i] in ns && r[i].userId == userId
    ensures forall i :: 0 <= i < |ns| && ns[i].userId == userId ==> ns[i] in r
  {
    Filter(ns, (n: Notification) => n.userId == userId)
  }

  /** Newest first: `createdAt` never increases along the sequence. */
  predicate NewestFirst(ns: seq<Notification>) {
    forall i, j :: 0 <= i < j < |ns| ==> ns[i].createdAt >= ns[j].createdAt
  }

  /** One step of the stable sort: `n` goes before the first element that is not newer. */
  function InsertNewest(n: Notification, s: seq<Notification>): (r: seq<Notification>)
    requires NewestFirst(s)
    ensures NewestFirst(r)
    ensures multiset(r) == multiset(s) + multiset{n}
    ensures |s| > 0 ==> r[0] == n || r[0] == s[0]
  {
    if |s| == 0 || n.createdAt >= s[0].createdAt then [n] + s
    else
      assert s == [s[0]] + s[1..];
      [s[0]] + InsertNewest(n, s[1..])
  }

  /** `sort((a, b) => b.createdAt - a.createdAt)`: a stable newest-first ordering. */
  function SortNewest(s: seq<Notification>): (r: seq<Notification>)
    ensures NewestFirst(r)
    ensures multiset(r) == multiset(s)
  {
    if |s| == 0 then []
    else
      assert s == [s[0]] + s[1..];
      InsertNewest(s[0], SortNewest(s[1..]))
  }

  // ----- Credit exposure ------------------------------------------------------------------

  /** What one payment adds to the pending total of pharmacy `pid`. */
  function PendingAmount(p: Payment, pid: int): int {
    if p.pharmacyId == pid && p.status == "pending" then p.amount else 0
  }

  /** The sum of the amounts of the pending payments of pharmacy `pid`. */
  function PendingTotal(ps: seq<Payment>, pid: int): int {
    if |ps| == 0 then 0 else PendingAmount(ps[0], pid) + PendingTotal(ps[1..], pid)
  }

  /** A new payment adds its own pending amount and nothing else. */
  lemma {:induction false} PendingTotalAppend(ps: seq<Payment>, pid: int, x: Payment)
    ensures PendingTotal(ps + [x], pid) == PendingTotal(ps, pid) + PendingAmount(x, pid)
  {
    if |ps| > 0 {
      assert (ps + [x])[1..] == ps[1..] + [x];
      PendingTotalAppend(ps[1..], pid, x);
    }
  }

  /** Replacing one payment changes the total by the difference of the two pending amounts. */
  lemma {:induction false} PendingTotalUpdate(ps: seq<Payment>, pid: int, k: int, x: Payment)
    requires 0 <= k < |ps|
    ensures PendingTotal(ps[k := x], pid)
            == PendingTotal(ps, pid) - PendingAmount(ps[k], pid) + PendingAmount(x, pid)
  {
    if k > 0 {
      assert ps[k := x][1..] == ps[1..][k - 1 := x];
      PendingTotalUpdate(ps[1..], pid, k - 1, x);
    }
  }

  /** Payments of other pharmacies do not count. */
  lemma {:induction false} PendingTotalOthers(ps: seq<Payment>, pid: int)
    requires forall i :: 0 <= i < |ps| ==> ps[i].pharmacyId != pid
    ensures PendingTotal(ps, pid) == 0
  {
    if |ps| > 0 {
      PendingTotalOthers(ps[1..], pid);
    }
  }

  // ----- The store ------------------------------------------------------------------------

  predicate UsernamesUnique(us: seq<User>) {
    forall i, j :: 0 <= i < j < |us| ==> us[i].username != us[j].username
  }

  // ----- Error messages of createUser ------------------------------------------------------

  const MissingUserFields := "Missing required fields: username, password, email, and role are required"
  const UsernameTaken := "User with this username already exists"

  class MemoryDatabase {
    var users: seq<User>
    var products: seq<Product>
    var orders: seq<Order>
    var payments: seq<Payment>
    var deliveries: seq<Delivery>
    var notifications: seq<Notification>
    /** `counters.users`, …: the id the next record of each table receives. */
    var nextUserId: int
    var nextProductId: int
    var nextOrderId: int
    var nextPaymentId: int
    var nextDeliveryId: int
    var nextNotificationId: int

    /** Every table holds records with distinct ids below its counter, in id order, and no
        two users share a username. */
    ghost predicate Valid()
      reads this
    {
      UsersValid() && ProductsValid() && OrdersValid() && PaymentsValid()
      && DeliveriesValid() && NotificationsValid()
    }

    ghost predicate UsersValid()
      reads this`users, this`nextUserId
    {
      Numbered(users, UserKey, nextUserId) && UsernamesUnique(users)
    }

    ghost predicate ProductsValid()
      reads this`products, this`nextProductId
    {
      Numbered(products, ProductKey, nextProductId)
    }

    ghost predicate OrdersValid()
      reads this`orders, this`nextOrderId
    {
      Numbered(orders, OrderKey, nextOrderId)
    }

    ghost predicate PaymentsValid()
      reads this`payments, this`nextPaymentId
    {
      Numbered(payments, PaymentKey, nextPaymentId)
    }

    ghost predicate DeliveriesValid()
      reads this`deliveries, this`nextDeliveryId
    {
      Numbered(deliveries, DeliveryKey, nextDeliveryId)
    }

    ghost predicate NotificationsValid()
      reads this`notifications, this`nextNotificationId
    {
      Numbered(notifications, NotificationKey, nextNotificationId)
    }

    /** `new MemoryDatabase()`: empty tables, counters at 1, then the seed data. */
    constructor (now: int)
      ensures Valid()
      ensures |users| == 7 && |products| == 12 && |orders| == 5
      ensures |payments| == 3 && |deliveries| == 3 && |notifications| == 4
      ensures nextUserId == 8 && nextProductId == 13 && nextOrderId == 6
      ensures nextPaymentId == 4 && nextDeliveryId == 4 && nextNotificationId == 5
    {
      users, products, orders, payments, deliveries, notifications := [], [], [], [], [], [];
      nextUserId, nextProductId, nextOrderId := 1, 1, 1;
      nextPaymentId, nextDeliveryId, nextNotificationId := 1, 1, 1;
      new;
      SeedDatabase(now);
    }

    /** `seedDatabase()`: users are pushed directly; every other record goes through its
        create method. */
    method SeedDatabase(now: int)
      requires UsersValid() && users == [] && nextUserId == 1
      requires ProductsValid() && products == [] && nextProductId == 1
      requires OrdersValid() && orders == [] && nextOrderId == 1
      requires PaymentsValid() && payments == [] && nextPaymentId == 1
      requires DeliveriesValid() && deliveries == [] && nextDeliveryId == 1
      requires NotificationsValid() && notifications == [] && nextNotificationId == 1
      modifies this
      ensures UsersValid() && |users| == 7 && nextUserId == 8
      ensures ProductsValid() && |products| == 12 && nextProductId == 13
      ensures OrdersValid() && |orders| == 5 && nextOrderId == 6
      ensures PaymentsValid() && |payments| == 3 && nextPaymentId == 4
      ensures DeliveriesValid() && |deliveries| == 3 && nextDeliveryId == 4
      ensures NotificationsValid() && |notifications| == 4 && nextNotificationId == 5
    {
      SeedTrade(now);
      SeedSettlement(now);
    }

    /** The users, the catalogue and the orders of the seed. */
    method SeedTrade(now: int)
      requires UsersValid() && users == [] && nextUserId == 1
      requires ProductsValid() && products == [] && nextProductId == 1
      requires OrdersValid() && orders == [] && nextOrderId == 1
      modifies this`users, this`nextUserId, this`products, this`nextProductId
      modifies this`orders, this`nextOrderId
      ensures UsersValid() && |users| == 7 && nextUserId == 8
      ensures ProductsValid() && |products| == 12 && nextProductId == 13
      ensures OrdersValid() && |orders| == 5 && nextOrderId == 6
    {
      SeedUsers(now);
      SeedProducts(now);
      SeedOrders(now);
    }

    /** The payments, deliveries and notifications of the seed. */
    method SeedSettlement(now: int)
      requires PaymentsValid() && payments == [] && nextPaymentId == 1
      requires DeliveriesValid() && deliveries == [] && nextDeliveryId == 1
      requires NotificationsValid() && notifications == [] && nextNotificationId == 1
      modifies this`payments, this`nextPaymentId, this`deliveries, this`nextDeliveryId
      modifies this`notifications, this`nextNotificationId
      ensures PaymentsValid() && |payments| == 3 && nextPaymentId == 4
      ensures DeliveriesValid() && |deliveries| == 3 && nextDeliveryId == 4
      ensures NotificationsValid() && |notifications| == 4 && nextNotificationId == 5
    {
      SeedPayments(now);
      SeedDeliveries(now);
      SeedNotifications(now);
    }

    method SeedUsers(now: int)
      requires UsersValid() && users == [] && nextUserId == 1
      modifies this`users, this`nextUserId
      ensures UsersValid() && |users| == 7 && nextUserId == 8
    {
      var us := Seed.Users();
      for i := 0 to |us|
        invariant UsersValid() && |users| == i && nextUserId == i + 1
        invariant forall k :: 0 <= k < i ==> users[k].username == us[k].username
      {
        PushUser(us[i], now);
      }
    }

    method SeedProducts(now: int)
      requires ProductsValid() && products == [] && nextProductId == 1
      modifies this`products, this`nextProductId
      ensures ProductsValid() && |products| == 12 && nextProductId == 13
    {
      var ps := Seed.Products();
      for i := 0 to |ps|
        invariant ProductsValid() && |products| == i && nextProductId == i + 1
      {
        var _ := CreateProduct(ps[i], now);
      }
    }

    method SeedOrders(now: int)
      requires OrdersValid() && orders == [] && nextOrderId == 1
      modifies this`orders, this`nextOrderId
      ensures OrdersValid() && |orders| == 5 && nextOrderId == 6
    {
      var os := Seed.Orders(now);
      for i := 0 to |os|
        invariant OrdersValid() && |orders| == i && nextOrderId == i + 1
      {
        var _ := CreateOrder(os[i], now);
      }
    }

    method SeedPayments(now: int)
      requires PaymentsValid() && payments == [] && nextPaymentId == 1
      modifies this`payments, this`nextPaymentId
      ensures PaymentsValid() && |payments| == 3 && nextPaymentId == 4
    {
      var ps := Seed.Payments(now);
      for i := 0 to |ps|
        invariant PaymentsValid() && |payments| == i && nextPaymentId == i + 1
      {
        var _ := CreatePayment(ps[i], now);
      }
    }

    method SeedDeliveries(now: int)
      requires DeliveriesValid() && deliveries == [] && nextDeliveryId == 1
      modifies this`deliveries, this`nextDeliveryId
      ensures DeliveriesValid() && |deliveries| == 3 && nextDeliveryId == 4
    {
      var ds := Seed.Deliveries(now);
      for i := 0 to |ds|
        invariant DeliveriesValid() && |deliveries| == i && nextDeliveryId == i + 1
      {
        var _ := CreateDelivery(ds[i], now);
      }
    }

    /** The seed notifications are all a day old or more, so none suppresses another. */
    method SeedNotifications(now: int)
      requires NotificationsValid() && notifications == [] && nextNotificationId == 1
      modifies this`notifications, this`nextNotificationId
      ensures NotificationsValid() && |notifications| == 4 && nextNotificationId == 5
    {
      var ns := Seed.Notifications(now);
      for i := 0 to |ns|
        invariant NotificationsValid() && |notifications| == i && nextNotificationId == i + 1
        invariant forall k :: 0 <= k < i ==> notifications[k].createdAt <= now - Seed.Day
      {
        var _ := CreateNotification(ns[i], now);
      }
    }

    /** The seed's direct push of a user record, bypassing `createUser`'s checks. */
    method PushUser(d: UserDraft, now: int)
      requires UsersValid()
      requires forall i :: 0 <= i < |users| ==> users[i].username != d.username
      modifies this`users, this`nextUserId
      ensures UsersValid()
      ensures users == old(users) + [NewUser(old(nextUserId), now, d)]
      ensures nextUserId == old(nextUserId) + 1
    {
      NumberedAppend(users, UserKey, nextUserId, NewUser(nextUserId, now, d));
      users := users + [NewUser(nextUserId, now, d)];
      nextUserId := nextUserId + 1;
    }

    // ----- Users ------------------------------------------------------------------------

    /** `getUserByUsername`: the stored record, password included. */
    function GetUserByUsername(username: string): (r: Option<User>)
      reads this`users
      ensures r.Some? ==> r.value in users && r.value.username == username
      ensures r.None? <==> forall i :: 0 <= i < |users| ==> users[i].username != username
    {
      var k := FindIndex(users, (u: User) => u.username == username);
      if k < 0 then None else Some(users[k])
    }

    /** `getUserById`: the user with that id, without its password. */
    function GetUserById(id: int): (r: Option<PublicUser>)
      reads this`users
      ensures r.None? <==> forall i :: 0 <= i < |users| ==> users[i].id != id
      ensures r.Some? ==> r.value.id == id
                          && exists i :: 0 <= i < |users| && r.value == Public(users[i])
    {
      var k := IndexOf(users, UserKey, id);
      if k < 0 then None else Some(Public(users[k]))
    }

    /** `createUser`: refuses a draft that lacks a username, password, email or role, or
        whose username is taken; otherwise stores the user under the next id and answers it
        without the password. */
    method CreateUser(d: UserDraft, now: int) returns (r: Result<PublicUser, string>)
      requires UsersValid()
      modifies this`users, this`nextUserId
      ensures UsersValid()
      ensures r.Err? ==> users == old(users) && nextUserId == old(nextUserId)
      ensures (d.username == "" || d.password == "" || d.email == "" || d.role == "")
              ==> r == Err(MissingUserFields)
      ensures (d.username != "" && d.password != "" && d.email != "" && d.role != ""
               && old(GetUserByUsername(d.username)).Some?)
              ==> r == Err(UsernameTaken)
      ensures r.Ok? <==> d.username != "" && d.password != "" && d.email != "" && d.role != ""
                         && old(GetUserByUsername(d.username)).None?
      ensures r.Ok? ==> && users == old(users) + [NewUser(old(nextUserId), now, d)]
                        && nextUserId == old(nextUserId) + 1
                        && r.value == Public(NewUser(old(nextUserId), now, d))
    {
      if d.username == "" || d.password == "" || d.email == "" || d.role == "" {
        return Err(MissingUserFields);
      }
      if GetUserByUsername(d.username).Some? {
        return Err(UsernameTaken);
      }
      var u := NewUser(nextUserId, now, d);
      NumberedAppend(users, UserKey, nextUserId, u);
      users := users + [u];
      nextUserId := nextUserId + 1;
      r := Ok(Public(u));
    }

    /** `updateUser`: merges the patch into the user with that id. */
    method UpdateUser(id: int, patch: UserPatch) returns (r: Option<PublicUser>)
      requires UsersValid()
      modifies this`users
      ensures UsersValid()
      ensures var k := IndexOf(old(users), UserKey, id);
              if k < 0 then r.None? && users == old(users)
              else && users == old(users)[k := PatchUser(old(users)[k], patch)]
                   && r == Some(Public(users[k]))
    {
      var k := IndexOf(users, UserKey, id);
      if k < 0 {
        return None;
      }
      var u := PatchUser(users[k], patch);
      NumberedUpdate(users, UserKey, nextUserId, k, u);
      users := users[k := u];
      r := Some(Public(u));
    }

    /** `getUsersByRole`: every user with that role, without passwords, in table order. */
    function GetUsersByRole(role: string): (r: seq<PublicUser>)
      reads this`users
      ensures forall i :: 0 <= i < |r| ==> r[i].role == role
                                           && exists j :: 0 <= j < |users| && r[i] == Public(users[j])
      ensures forall j :: 0 <= j < |users| && users[j].role == role ==> Public(users[j]) in r
    {
      var f := Filter(users, (u: User) => u.role == role);
      var r := seq(|f|, i requires 0 <= i < |f| => Public(f[i]));
      assert forall j :: 0 <= j < |users| && users[j].role == role ==> Public(users[j]) in r by {
        forall j | 0 <= j < |users| && users[j].role == role
          ensures Public(users[j]) in r
        {
          var k :| 0 <= k < |f| && f[k] == users[j];
          assert r[k] == Public(users[j]);
        }
      }
      r
    }

    // ----- Products ---------------------------------------------------------------------

    method CreateProduct(d: ProductDraft, now: int) returns (p: Product)
      requires ProductsValid()
      modifies this`products, this`nextProductId
      ensures ProductsValid()
      ensures p == NewProduct(old(nextProductId), now, d) && p.id == old(nextProductId)
      ensures products == old(products) + [p] && nextProductId == old(nextProductId) + 1
    {
      p := NewProduct(nextProductId, now, d);
      NumberedAppend(products, ProductKey, nextProductId, p);
      products := products + [p];
      nextProductId := nextProductId + 1;
    }

    /** `getProductById`: the product with that id, if any. */
    function GetProductById(id: int): (r: Option<Product>)
      reads this`products
      ensures r.None? <==> forall i :: 0 <= i < |products| ==> products[i].id != id
      ensures r.Some? ==> r.value in products && r.value.id == id
    {
      var k := IndexOf(products, ProductKey, id);
      if k < 0 then None else Some(products[k])
    }

    // ----- Orders -----------------------------------------------------------------------

    method CreateOrder(d: OrderDraft, now: int) returns (o: Order)
      requires OrdersValid()
      modifies this`orders, this`nextOrderId
      ensures OrdersValid()
      ensures o == NewOrder(old(nextOrderId), now, d)
      ensures orders == old(orders) + [o] && nextOrderId == old(nextOrderId) + 1
    {
      o := NewOrder(nextOrderId, now, d);
      NumberedAppend(orders, OrderKey, nextOrderId, o);
      orders := orders + [o];
      nextOrderId := nextOrderId + 1;
    }

    function GetOrderById(id: int): (r: Option<Order>)
      reads this`orders
      ensures r.None? <==> forall i :: 0 <= i < |orders| ==> orders[i].id != id
      ensures r.Some? ==> r.value in orders && r.value.id == id
    {
      var k := IndexOf(orders, OrderKey, id);
      if k < 0 then None else Some(orders[k])
    }

    /** `getOrdersByPharmacy`: exactly the orders placed by that pharmacy. */
    function GetOrdersByPharmacy(pharmacyId: int): (r: seq<Order>)
      reads this`orders
      ensures forall i :: 0 <= i < |r| ==> r[i] in orders && r[i].pharmacyId == pharmacyId
      ensures forall i :: 0 <= i < |orders| && orders[i].pharmacyId == pharmacyId ==> orders[i] in r
    {
      Filter(orders, (o: Order) => o.pharmacyId == pharmacyId)
    }

    /** `getOrdersByDistributor`: exactly the orders addressed to that distributor. */
    function GetOrdersByDistributor(distributorId: int): (r: seq<Order>)
      reads this`orders
      ensures forall i :: 0 <= i < |r| ==> r[i] in orders && r[i].distributorId == distributorId
      ensures forall i :: 0 <= i < |orders| && orders[i].distributorId == distributorId
                          ==> orders[i] in r
    {
      Filter(orders, (o: Order) => o.distributorId == distributorId)
    }

    /** `updateOrderStatus`: sets the status and `updatedAt` of the order with that id and
        answers the updated order; every other order is untouched. */
    method UpdateOrderStatus(id: int, status: string, now: int) returns (r: Option<Order>)
      requires OrdersValid()
      modifies this`orders
      ensures OrdersValid()
      ensures var k := IndexOf(old(orders), OrderKey, id);
              if k < 0 then r.None? && orders == old(orders)
              else && r == Some(old(orders)[k].(status := status, updatedAt := Some(now)))
                   && orders == old(orders)[k := r.value]
    {
      var k := IndexOf(orders, OrderKey, id);
      if k < 0 {
        return None;
      }
      var o := orders[k].(status := status, updatedAt := Some(now));
      NumberedUpdate(orders, OrderKey, nextOrderId, k, o);
      orders := orders[k := o];
      r := Some(o);
    }

    // ----- Payments ---------------------------------------------------------------------

    method CreatePayment(d: PaymentDraft, now: int) returns (p: Payment)
      requires PaymentsValid()
      modifies this`payments, this`nextPaymentId
      ensures PaymentsValid()
      ensures p == NewPayment(old(nextPaymentId), now, d)
      ensures payments == old(payments) + [p] && nextPaymentId == old(nextPaymentId) + 1
    {
      p := NewPayment(nextPaymentId, now, d);
      NumberedAppend(payments, PaymentKey, nextPaymentId, p);
      payments := payments + [p];
      nextPaymentId := nextPaymentId + 1;
    }

    function GetPaymentById(id: int): (r: Option<Payment>)
      reads this`payments
      ensures r.None? <==> forall i :: 0 <= i < |payments| ==> payments[i].id != id
      ensures r.Some? ==> r.value in payments && r.value.id == id
    {
      var k := IndexOf(payments, PaymentKey, id);
      if k < 0 then None else Some(payments[k])
    }

    /** `getPaymentsByPharmacy`: exactly the payments made by that pharmacy. */
    function GetPaymentsByPharmacy(pharmacyId: int): (r: seq<Payment>)
      reads this`payments
      ensures forall i :: 0 <= i < |r| ==> r[i] in payments && r[i].pharmacyId == pharmacyId
      ensures forall i :: 0 <= i < |payments| && payments[i].pharmacyId == pharmacyId
                          ==> payments[i] in r
    {
      Filter(payments, (p: Payment) => p.pharmacyId == pharmacyId)
    }

    /** `updatePaymentStatus`: as `updateOrderStatus`, on the payments table. */
    method UpdatePaymentStatus(id: int, status: string, now: int) returns (r: Option<Payment>)
      requires PaymentsValid()
      modifies this`payments
      ensures PaymentsValid()
      ensures var k := IndexOf(old(payments), PaymentKey, id);
              if k < 0 then r.None? && payments == old(payments)
              else && r == Some(old(payments)[k].(status := status, updatedAt := Some(now)))
                   && payments == old(payments)[k := r.value]
    {
      var k := IndexOf(payments, PaymentKey, id);
      if k < 0 {
        return None;
      }
      var p := payments[k].(status := status, updatedAt := Some(now));
      NumberedUpdate(payments, PaymentKey, nextPaymentId, k, p);
      payments := payments[k := p];
      r := Some(p);
    }

    /** `isExceedingCreditLimit`: an unknown user or one who is not a pharmacy is always
        over the limit; a pharmacy is over it when its pending payments add up to more than
        its credit limit (a missing limit counting as zero). */
    function IsExceedingCreditLimit(pharmacyId: int): (r: bool)
      requires UsersValid()
      reads this`users, this`nextUserId, this`payments
      ensures GetUserById(pharmacyId).None? ==> r
      ensures GetUserById(pharmacyId).Some? && GetUserById(pharmacyId).value.role != "pharmacy" ==> r
      ensures !r <==> exists i :: && 0 <= i < |users| && users[i].id == pharmacyId
                                 && users[i].role == "pharmacy"
                                 && PendingTotal(payments, pharmacyId) <= users[i].creditLimit.GetOr(0)
    {
      var pharmacy := GetUserById(pharmacyId);
      if pharmacy.None? || pharmacy.value.role != "pharmacy" then
        assert forall i :: 0 <= i < |users| && users[i].id == pharmacyId ==> users[i].role != "pharmacy" by {
          if pharmacy.Some? {
            var k := IndexOf(users, UserKey, pharmacyId);
            forall i | 0 <= i < |users| && users[i].id == pharmacyId
              ensures users[i].role != "pharmacy"
            {
              NumberedUnique(users, UserKey, nextUserId, i, k);
            }
          }
        }
        true
      else
        var k := IndexOf(users, UserKey, pharmacyId);
        assert forall i :: 0 <= i < |users| && users[i].id == pharmacyId ==> i == k by {
          forall i | 0 <= i < |users| && users[i].id == pharmacyId ensures i == k {
            NumberedUnique(users, UserKey, nextUserId, i, k);
          }
        }
        PendingTotal(payments, pharmacyId) > pharmacy.value.creditLimit.GetOr(0)
    }

    // ----- Deliveries -------------------------------------------------------------------

    method CreateDelivery(d: DeliveryDraft, now: int) returns (v: Delivery)
      requires DeliveriesValid()
      modifies this`deliveries, this`nextDeliveryId
      ensures DeliveriesValid()
      ensures v == NewDelivery(old(nextDeliveryId), now, d)
      ensures deliveries == old(deliveries) + [v] && nextDeliveryId == old(nextDeliveryId) + 1
    {
      v := NewDelivery(nextDeliveryId, now, d);
      NumberedAppend(deliveries, DeliveryKey, nextDeliveryId, v);
      deliveries := deliveries + [v];
      nextDeliveryId := nextDeliveryId + 1;
    }

    /** `updateDeliveryStatus`: sets status and `updatedAt`, and merges `confirmation` into
        the stored confirmation (keys of the new data win). */
    method UpdateDeliveryStatus(id: int, status: string, confirmation: Fields, now: int)
      returns (r: Option<Delivery>)
      requires DeliveriesValid()
      modifies this`deliveries
      ensures DeliveriesValid()
      ensures var k := IndexOf(old(deliveries), DeliveryKey, id);
              if k < 0 then r.None? && deliveries == old(deliveries)
              else && r == Some(old(deliveries)[k].(status := status, updatedAt := Some(now),
                                  confirmation := old(deliveries)[k].confirmation + confirmation))
                   && deliveries == old(deliveries)[k := r.value]
    {
      var k := IndexOf(deliveries, DeliveryKey, id);
      if k < 0 {
        return None;
      }
      var v := deliveries[k].(status := status, updatedAt := Some(now),
                              confirmation := deliveries[k].confirmation + confirmation);
      NumberedUpdate(deliveries, DeliveryKey, nextDeliveryId, k, v);
      deliveries := deliveries[k := v];
      r := Some(v);
    }

    // ----- Notifications ----------------------------------------------------------------

    /** `createNotification`: stores nothing and answers `None` when an identical
        notification for the same user is younger than five minutes; otherwise stores and
        answers the new notification. */
    method CreateNotification(d: NotificationDraft, now: int) returns (r: Option<Notification>)
      requires NotificationsValid()
      modifies this`notifications, this`nextNotificationId
      ensures NotificationsValid()
      ensures Notified(old(notifications), old(nextNotificationId), notifications,
                       nextNotificationId, d, now)
      ensures r.None? <==> IsDuplicate(old(notifications), d, now)
      ensures r.Some? ==> r.value == NewNotification(old(nextNotificationId), now, d)
    {
      if IsDuplicate(notifications, d, now) {
        return None;
      }
      var n := NewNotification(nextNotificationId, now, d);
      NumberedAppend(notifications, NotificationKey, nextNotificationId, n);
      notifications := notifications + [n];
      nextNotificationId := nextNotificationId + 1;
      r := Some(n);
    }

    /** `getNotificationsByUserId`: the user's notifications, newest first. */
    function GetNotificationsByUserId(userId: int): (r: seq<Notification>)
      reads this`notifications
      ensures NewestFirst(r)
      ensures multiset(r) == multiset(OwnedBy(notifications, userId))
    {
      SortNewest(OwnedBy(notifications, userId))
    }

    /** `markNotificationAsRead`: marks the notification `id` read, but only when it
        belongs to `userId`. */
    method MarkNotificationAsRead(id: int, userId: int, now: int) returns (r: Option<Notification>)
      requires NotificationsValid()
      modifies this`notifications
      ensures NotificationsValid()
      ensures var k := NoticeIndex(old(notifications), id, userId);
              if k < 0 then r.None? && notifications == old(notifications)
              else && r == Some(old(notifications)[k].(read := true, readAt := Some(now)))
                   && notifications == old(notifications)[k := r.value]
    {
      var k := NoticeIndex(notifications, id, userId);
      if k < 0 {
        return None;
      }
      var n := notifications[k].(read := true, readAt := Some(now));
      NumberedUpdate(notifications, NotificationKey, nextNotificationId, k, n);
      notifications := notifications[k := n];
      r := Some(n);
    }

    /** `markAllNotificationsAsRead`: every notification of the user is marked read; the
        others are untouched. */
    method MarkAllNotificationsAsRead(userId: int, now: int)
      requires NotificationsValid()
      modifies this`notifications
      ensures NotificationsValid()
      ensures |notifications| == |old(notifications)|
      ensures forall i :: 0 <= i < |notifications| ==>
                if old(notifications)[i].userId == userId
                then notifications[i] == old(notifications)[i].(read := true, readAt := Some(now))
                else notifications[i] == old(notifications)[i]
    {
      var i := 0;
      while i < |notifications|
        invariant 0 <= i <= |notifications| == |old(notifications)|
        invariant NotificationsValid()
        invariant forall j :: 0 <= j < i ==>
                    if old(notifications)[j].userId == userId
                    then notifications[j] == old(notifications)[j].(read := true, readAt := Some(now))
                    else notifications[j] == old(notifications)[j]
        invariant notifications[i..] == old(notifications)[i..]
      {
        if notifications[i].userId == userId {
          var n := notifications[i].(read := true, readAt := Some(now));
          NumberedUpdate(notifications, NotificationKey, nextNotificationId, i, n);
          notifications := notifications[i := n];
        }
        assert notifications[i] == old(notifications)[i] || notifications[i].userId == userId;
        i := i + 1;
      }
    }

    /** `clearAllNotifications`: removes exactly the user's notifications. */
    method ClearAllNotifications(userId: int)
      requires NotificationsValid()
      modifies this`notifications
      ensures NotificationsValid()
      ensures notifications == Filter(old(notifications), (n: Notification) => n.userId != userId)
      ensures forall i :: 0 <= i < |notifications| ==> notifications[i].userId != userId
      ensures forall i :: 0 <= i < |old(notifications)| && old(notifications)[i].userId != userId
                          ==> old(notifications)[i] in notifications
    {
      NumberedFilter(notifications, NotificationKey, nextNotificationId,
                     (n: Notification) => n.userId != userId);
      notifications := Filter(notifications, (n: Notification) => n.userId != userId);
    }
  }
}
