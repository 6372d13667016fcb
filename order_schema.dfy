/** The order document schema: its enumerations, its required fields, the
    minimum on line-item quantities and the defaults the document store
    fills in when an order is saved. */
module OrderSchema {
  import opened Common

  datatype PaymentMethod = Cod | Bank | Card | Momo
  datatype PaymentStatus = PaymentPending | Paid | Failed
  datatype OrderStatus = Pending | Processing | Shipped | Delivered | Cancelled

  const PaymentMethodNames: seq<string> := ["cod", "bank", "card", "momo"]
  const PaymentStatusNames: seq<string> := ["pending", "paid", "failed"]
  const OrderStatusNames: seq<string> := ["pending", "processing", "shipped", "delivered", "cancelled"]

  function PaymentMethodName(m: PaymentMethod): string {
    match m
    case Cod => "cod"
    case Bank => "bank"
    case Card => "card"
    case Momo => "momo"
  }

  function PaymentStatusName(s: PaymentStatus): string {
    match s
    case PaymentPending => "pending"
    case Paid => "paid"
    case Failed => "failed"
  }

  function OrderStatusName(s: OrderStatus): string {
    match s
    case Pending => "pending"
    case Processing => "processing"
    case Shipped => "shipped"
    case Delivered => "delivered"
    case Cancelled => "cancelled"
  }

  /** The enum check on `paymentMethod`: a string is accepted exactly when it
      is one of the four names, and then it names the method returned. */
  function ParsePaymentMethod(s: string): (r: Option<PaymentMethod>)
    ensures r.Some? <==> s in PaymentMethodNames
    ensures r.Some? ==> PaymentMethodName(r.value) == s
  {
    if s == "cod" then Some(Cod)
    else if s == "bank" then Some(Bank)
    else if s == "card" then Some(Card)
    else if s == "momo" then Some(Momo)
    else None
  }

  function ParsePaymentStatus(s: string): (r: Option<PaymentStatus>)
    ensures r.Some? <==> s in PaymentStatusNames
    ensures r.Some? ==> PaymentStatusName(r.value) == s
  {
    if s == "pending" then Some(PaymentPending)
    else if s == "paid" then Some(Paid)
    else if s == "failed" then Some(Failed)
    else None
  }

  function ParseOrderStatus(s: string): (r: Option<OrderStatus>)
    ensures r.Some? <==> s in OrderStatusNames
    ensures r.Some? ==> OrderStatusName(r.value) == s
  {
    if s == "pending" then Some(Pending)
    else if s == "processing" then Some(Processing)
    else if s == "shipped" then Some(Shipped)
    else if s == "delivered" then Some(Delivered)
    else if s == "cancelled" then Some(Cancelled)
    else None
  }

  /** Every enumeration value reads back from its own name. */
  lemma EnumNamesRoundTrip()
    ensures forall m :: ParsePaymentMethod(PaymentMethodName(m)) == Some(m)
    ensures forall s :: ParsePaymentStatus(PaymentStatusName(s)) == Some(s)
    ensures forall s :: ParseOrderStatus(OrderStatusName(s)) == Some(s)
  {
  }

  // ------------------------------------------------------------ documents

  /** A line item as the order handler hands it to the store: every field may
      be missing or null. */
  datatype LineItemDoc = LineItemDoc(product: Field<Id>, name: Field<string>,
                                     quantity: Field<int>, price: Field<int>)

  /** The shipping block as handed to the store; `note` is always a string. */
  datatype ShippingDoc = ShippingDoc(fullName: Field<string>, email: Field<string>,
                                     phone: Field<string>, address: Field<string>,
                                     city: Field<string>, district: Field<string>,
                                     note: string)

  /** An order document before validation. The two statuses are strings or
      not given (then the schema default applies); the prices may be missing
      or null. */
  datatype OrderDoc = OrderDoc(user: Id, items: seq<LineItemDoc>, shipping: ShippingDoc,
                               paymentMethod: Field<string>,
                               paymentStatus: Option<string>,
                               itemsPrice: Field<int>, shippingPrice: Field<int>,
                               totalPrice: Field<int>,
                               orderStatus: Option<string>)

  // --------------------------------------------------------- stored orders

  datatype LineItem = LineItem(product: Id, name: string, quantity: int, price: int)

  datatype ShippingInfo = ShippingInfo(fullName: string, email: string, phone: string,
                                       address: string, city: string, district: string,
                                       note: string)

  datatype Order = Order(id: Id, user: Id, items: seq<LineItem>, shipping: ShippingInfo,
                         paymentMethod: PaymentMethod, paymentStatus: PaymentStatus,
                         itemsPrice: int, shippingPrice: int, totalPrice: int,
                         orderStatus: OrderStatus, deliveredAt: Option<int>,
                         createdAt: int)

  /** A required Number: present and not null (zero is fine). */
  predicate RequiredNumber(f: Field<int>) {
    f.Value?
  }

  /** A required Number with a default: a missing value takes the default,
      an explicit null fails. */
  predicate DefaultedNumberOk(f: Field<int>) {
    !f.Null?
  }

  function DefaultedNumber(f: Field<int>, default: int): int {
    if f.Value? then f.v else default
  }

  /** A supplied price is stored as given; an absent one takes the default 0. */
  predicate PriceStored(f: Field<int>, stored: int) {
    && (f.Value? ==> stored == f.v)
    && (f.Undefined? ==> stored == 0)
  }

  predicate LineItemDocValid(d: LineItemDoc) {
    && d.product.Value?
    && TruthyText(d.name)
    && RequiredNumber(d.quantity) && d.quantity.v >= 1
    && RequiredNumber(d.price)
  }

  predicate ShippingDocValid(d: ShippingDoc) {
    && TruthyText(d.fullName) && TruthyText(d.email) && TruthyText(d.phone)
    && TruthyText(d.address) && TruthyText(d.city) && TruthyText(d.district)
  }

  /** Every constraint the order schema places on a document. */
  predicate OrderDocValid(d: OrderDoc) {
    && (forall i :: 0 <= i < |d.items| ==> LineItemDocValid(d.items[i]))
    && ShippingDocValid(d.shipping)
    && d.paymentMethod.Value? && ParsePaymentMethod(d.paymentMethod.v).Some?
    && (d.paymentStatus.Some? ==> ParsePaymentStatus(d.paymentStatus.value).Some?)
    && (d.orderStatus.Some? ==> ParseOrderStatus(d.orderStatus.value).Some?)
    && DefaultedNumberOk(d.itemsPrice) && DefaultedNumberOk(d.shippingPrice)
    && DefaultedNumberOk(d.totalPrice)
  }

  /** The constraints of the schema, stated on a stored order. */
  predicate OrderSatisfiesSchema(o: Order) {
    && (forall i :: 0 <= i < |o.items| ==> o.items[i].quantity >= 1 && o.items[i].name != "")
    && o.shipping.fullName != "" && o.shipping.email != "" && o.shipping.phone != ""
    && o.shipping.address != "" && o.shipping.city != "" && o.shipping.district != ""
  }

  function ToLineItem(d: LineItemDoc): LineItem
    requires LineItemDocValid(d)
  {
    LineItem(d.product.v, d.name.v, d.quantity.v, d.price.v)
  }

  function ToShippingInfo(d: ShippingDoc): ShippingInfo
    requires ShippingDocValid(d)
  {
    ShippingInfo(d.fullName.v, d.email.v, d.phone.v, d.address.v, d.city.v, d.district.v, d.note)
  }

  /** Saving a new order document: the store validates it against the schema,
      fills in the defaults and assigns the identifier and creation time.
      A document is stored exactly when it satisfies the schema; the stored
      order keeps every supplied value, and a status that was not given
      starts as pending. */
  function ValidateOrder(d: OrderDoc, id: Id, now: int): (r: Option<Order>)
    ensures r.Some? <==> OrderDocValid(d)
    ensures r.Some? ==> OrderSatisfiesSchema(r.value)
    ensures r.Some? ==> (
      && r.value.id == id && r.value.user == d.user && r.value.createdAt == now
      && r.value.deliveredAt == None
      && |r.value.items| == |d.items|
      && (forall i :: 0 <= i < |d.items| ==>
            && d.items[i].product == Value(r.value.items[i].product)
            && d.items[i].name == Value(r.value.items[i].name)
            && d.items[i].quantity == Value(r.value.items[i].quantity)
            && d.items[i].price == Value(r.value.items[i].price))
      && Value(PaymentMethodName(r.value.paymentMethod)) == d.paymentMethod)
    ensures r.Some? && d.paymentStatus.None? ==> r.value.paymentStatus == PaymentPending
    ensures r.Some? && d.orderStatus.None? ==> r.value.orderStatus == Pending
    ensures r.Some? && d.paymentStatus.Some? ==> PaymentStatusName(r.value.paymentStatus) == d.paymentStatus.value
    ensures r.Some? && d.orderStatus.Some? ==> OrderStatusName(r.value.orderStatus) == d.orderStatus.value
    ensures r.Some? ==> (
      && Value(r.value.shipping.fullName) == d.shipping.fullName
      && Value(r.value.shipping.email) == d.shipping.email
      && Value(r.value.shipping.phone) == d.shipping.phone
      && Value(r.value.shipping.address) == d.shipping.address
      && Value(r.value.shipping.city) == d.shipping.city
      && Value(r.value.shipping.district) == d.shipping.district
      && r.value.shipping.note == d.shipping.note)
    ensures r.Some? ==> PriceStored(d.itemsPrice, r.value.itemsPrice)
                        && PriceStored(d.shippingPrice, r.value.shippingPrice)
                        && PriceStored(d.totalPrice, r.value.totalPrice)
  {
    if !OrderDocValid(d) then None
    else
      var items := seq(|d.items|, i requires 0 <= i < |d.items| => ToLineItem(d.items[i]));
      var paymentStatus := if d.paymentStatus.Some? then ParsePaymentStatus(d.paymentStatus.value).value
                           else PaymentPending;
      var orderStatus := if d.orderStatus.Some? then ParseOrderStatus(d.orderStatus.value).value
                         else Pending;
      Some(Order(id, d.user, items, ToShippingInfo(d.shipping),
                 ParsePaymentMethod(d.paymentMethod.v).value, paymentStatus,
                 DefaultedNumber(d.itemsPrice, 0), DefaultedNumber(d.shippingPrice, 0),
                 DefaultedNumber(d.totalPrice, 0), orderStatus, None, now))
  }

  /** The schema sets no lower bound on the three prices: a negative total
      is stored as given. */
  lemma NegativePricesAccepted(d: OrderDoc, id: Id, now: int)
    requires OrderDocValid(d) && d.totalPrice == Value(-1)
    ensures ValidateOrder(d, id, now).Some? && ValidateOrder(d, id, now).value.totalPrice == -1
  {
  }
}
