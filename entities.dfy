/** The records of the in-memory store (users, products, orders, payments, deliveries,
    notifications) and the data that callers hand to its create methods.

    A JavaScript record is an open object; here each kind is a datatype with the keys the
    program writes. A string key that the program may leave out is the empty string
    (falsy either way); other optional keys are `Option`s. Money is held in fils
    (thousandths of a Jordanian dinar), timestamps in milliseconds. */
module Entities {
  import opened Wrappers

  /** A value inside the free-form `metadata` and `confirmation` sub-objects. */
  datatype Value = Num(n: int) | Str(s: string) | Null

  /** A free-form sub-object. */
  type Fields = map<string, Value>

  // ----- Users ---------------------------------------------------------------------------

  datatype User = User(
    id: int, createdAt: int, username: string, password: string, name: string,
    email: string, phoneNumber: string, role: string, businessName: string, address: string,
    creditLimit: Option<int>, businessType: Option<string>)

  /** A user as the store hands it out: every key except `password`. */
  datatype PublicUser = PublicUser(
    id: int, createdAt: int, username: string, name: string,
    email: string, phoneNumber: string, role: string, businessName: string, address: string,
    creditLimit: Option<int>, businessType: Option<string>)

  /** `const { password, ...userWithoutPassword } = user`. */
  function Public(u: User): PublicUser {
    PublicUser(u.id, u.createdAt, u.username, u.name, u.email, u.phoneNumber, u.role,
               u.businessName, u.address, u.creditLimit, u.businessType)
  }

  /** The `userData` object given to `createUser`; `createdAt` is `None` when the caller
      leaves the key out. */
  datatype UserDraft = UserDraft(
    createdAt: Option<int>, username: string, password: string, name: string,
    email: string, phoneNumber: string, role: string, businessName: string, address: string,
    creditLimit: Option<int>, businessType: Option<string>)

  /** `{ id, createdAt: now, ...userData }`: keys the caller supplies win over the defaults. */
  function NewUser(id: int, now: int, d: UserDraft): (u: User)
    ensures u.id == id
    ensures u.createdAt == (if d.createdAt.Some? then d.createdAt.value else now)
  {
    User(id, d.createdAt.GetOr(now), d.username, d.password, d.name, d.email, d.phoneNumber,
         d.role, d.businessName, d.address, d.creditLimit, d.businessType)
  }

  /** The object given to `updateUser`: `Some` for each key present in it. A present
      `creditLimit` key may hold `undefined`, hence the nested `Option`. */
  datatype UserPatch = UserPatch(
    name: Option<string>, email: Option<string>, phoneNumber: Option<string>,
    businessName: Option<string>, address: Option<string>, creditLimit: Option<Option<int>>)

  /** `{ ...user, ...patch }`. */
  function PatchUser(u: User, p: UserPatch): User {
    u.(name := p.name.GetOr(u.name), email := p.email.GetOr(u.email),
       phoneNumber := p.phoneNumber.GetOr(u.phoneNumber),
       businessName := p.businessName.GetOr(u.businessName),
       address := p.address.GetOr(u.address), creditLimit := p.creditLimit.GetOr(u.creditLimit))
  }

  function UserKey(u: User): int { u.id }

  // ----- Products ------------------------------------------------------------------------

  datatype Product = Product(
    id: int, createdAt: int, name: string, description: string, price: int,
    category: string, manufacturer: string, sku: string, stockQuantity: int,
    distributorId: int, updatedAt: Option<int>)

  datatype ProductDraft = ProductDraft(
    name: string, description: string, price: int, category: string, manufacturer: string,
    sku: string, stockQuantity: int, distributorId: int)

  /** `{ id, createdAt: now, ...productData }`. */
  function NewProduct(id: int, now: int, d: ProductDraft): (p: Product)
    ensures p.id == id && p.createdAt == now && p.updatedAt.None?
    ensures && p.name == d.name && p.description == d.description && p.price == d.price
            && p.category == d.category && p.manufacturer == d.manufacturer && p.sku == d.sku
            && p.stockQuantity == d.stockQuantity && p.distributorId == d.distributorId
  {
    Product(id, now, d.name, d.description, d.price, d.category, d.manufacturer, d.sku,
            d.stockQuantity, d.distributorId, None)
  }

  function ProductKey(p: Product): int { p.id }

  // ----- Orders --------------------------------------------------------------------------

  /** One stored line of an order: the product's name and price as they were when ordered. */
  datatype OrderLine = OrderLine(productId: int, name: string, price: int, quantity: int, total: int)

  datatype Order = Order(
    id: int, createdAt: int, status: string, pharmacyId: int, pharmacyName: string,
    distributorId: int, distributorName: string, items: seq<OrderLine>, totalAmount: int,
    notes: Option<string>, updatedAt: Option<int>)

  datatype OrderDraft = OrderDraft(
    createdAt: Option<int>, status: Option<string>, pharmacyId: int, pharmacyName: string,
    distributorId: int, distributorName: string, items: seq<OrderLine>, totalAmount: int,
    notes: Option<string>)

  /** `{ id, createdAt: now, status: 'pending', ...orderData }`. */
  function NewOrder(id: int, now: int, d: OrderDraft): (o: Order)
    ensures o.id == id && o.updatedAt.None?
    ensures o.status == (if d.status.Some? then d.status.value else "pending")
    ensures o.createdAt == (if d.createdAt.Some? then d.createdAt.value else now)
  {
    Order(id, d.createdAt.GetOr(now), d.status.GetOr("pending"), d.pharmacyId, d.pharmacyName,
          d.distributorId, d.distributorName, d.items, d.totalAmount, d.notes, None)
  }

  function OrderKey(o: Order): int { o.id }

  // ----- Payments ------------------------------------------------------------------------

  datatype Payment = Payment(
    id: int, createdAt: int, status: string, pharmacyId: int, pharmacyName: string,
    distributorId: int, distributorName: string, orderId: Option<int>, amount: int,
    checkImagePath: Option<string>, dueDate: Option<int>, notes: Option<string>,
    updatedAt: Option<int>)

  datatype PaymentDraft = PaymentDraft(
    createdAt: Option<int>, status: Option<string>, pharmacyId: int, pharmacyName: string,
    distributorId: int, distributorName: string, orderId: Option<int>, amount: int,
    checkImagePath: Option<string>, dueDate: Option<int>, notes: Option<string>)

  /** `{ id, createdAt: now, status: 'pending', ...paymentData }`. */
  function NewPayment(id: int, now: int, d: PaymentDraft): (p: Payment)
    ensures p.id == id && p.updatedAt.None?
    ensures p.status == (if d.status.Some? then d.status.value else "pending")
  {
    Payment(id, d.createdAt.GetOr(now), d.status.GetOr("pending"), d.pharmacyId, d.pharmacyName,
            d.distributorId, d.distributorName, d.orderId, d.amount, d.checkImagePath,
            d.dueDate, d.notes, None)
  }

  function PaymentKey(p: Payment): int { p.id }

  // ----- Deliveries ----------------------------------------------------------------------

  datatype Delivery = Delivery(
    id: int, createdAt: int, status: string, orderId: int, pharmacyId: int,
    pharmacyName: string, distributorId: int, distributorName: string, deliveryType: string,
    scheduledDate: Option<int>, notes: Option<string>, confirmation: Fields,
    updatedAt: Option<int>)

  /** A missing `confirmation` key spreads like an empty object, so it is the empty map. */
  datatype DeliveryDraft = DeliveryDraft(
    createdAt: Option<int>, status: Option<string>, orderId: int, pharmacyId: int,
    pharmacyName: string, distributorId: int, distributorName: string, deliveryType: string,
    scheduledDate: Option<int>, notes: Option<string>, confirmation: Fields)

  /** `{ id, createdAt: now, status: 'scheduled', ...deliveryData }`. */
  function NewDelivery(id: int, now: int, d: DeliveryDraft): (v: Delivery)
    ensures v.id == id && v.updatedAt.None?
    ensures v.status == (if d.status.Some? then d.status.value else "scheduled")
  {
    Delivery(id, d.createdAt.GetOr(now), d.status.GetOr("scheduled"), d.orderId, d.pharmacyId,
             d.pharmacyName, d.distributorId, d.distributorName, d.deliveryType,
             d.scheduledDate, d.notes, d.confirmation, None)
  }

  function DeliveryKey(d: Delivery): int { d.id }

  // ----- Notifications -------------------------------------------------------------------

  /** `kind` is the source's `type` key. */
  datatype Notification = Notification(
    id: int, createdAt: int, read: bool, userId: int, title: string, message: string,
    kind: string, metadata: Option<Fields>, readAt: Option<int>)

  datatype NotificationDraft = NotificationDraft(
    createdAt: Option<int>, read: Option<bool>, userId: int, title: string, message: string,
    kind: string, metadata: Option<Fields>)

  /** `{ id, createdAt: now, read: false, ...notificationData }`. */
  function NewNotification(id: int, now: int, d: NotificationDraft): (n: Notification)
    ensures n.id == id && n.userId == d.userId && n.readAt.None?
    ensures n.read == (d.read.Some? && d.read.value)
    ensures n.createdAt == (if d.createdAt.Some? then d.createdAt.value else now)
  {
    Notification(id, d.createdAt.GetOr(now), d.read.GetOr(false), d.userId, d.title,
                 d.message, d.kind, d.metadata, None)
  }

  function NotificationKey(n: Notification): int { n.id }
}
