/** The order workflow: creating an order from a checkout request, reading
    one order or a list of orders, the administrator's status update and the
    owner's cancellation. The order collection is a map from identifiers to
    orders inside `OrderStore`; the clock is a parameter (`now`). */
module Orders {
  import opened Common
  import opened OrderSchema
  import Sorting

  /** The authenticated caller, as the access middleware leaves it. */
  datatype Requester = Requester(id: Id, role: Role)

  // -------------------------------------------------------------- requests

  /** One entry of `orderItems` in the request body. */
  datatype ItemInput = ItemInput(productId: Field<Id>, product: Field<Id>, name: Field<string>,
                                 quantity: Field<int>, price: Field<int>)

  /** The `shippingInfo` object of the request body. */
  datatype ShippingInput = ShippingInput(fullName: Field<string>, email: Field<string>,
                                         phone: Field<string>, address: Field<string>,
                                         city: Field<string>, district: Field<string>,
                                         note: Field<string>)

  /** The body of a create-order request. */
  datatype OrderRequest = OrderRequest(orderItems: Field<seq<ItemInput>>,
                                       shippingInfo: Field<ShippingInput>,
                                       paymentMethod: Field<string>,
                                       itemsPrice: Field<int>, shippingPrice: Field<int>,
                                       totalPrice: Field<int>)

  const EmptyCartMessage := "Giỏ hàng trống"
  const MissingShippingMessage := "Thiếu thông tin giao hàng"
  const MissingFieldsPrefix := "Thiếu thông tin bắt buộc: "
  const InvalidPaymentMethodMessage := "Phương thức thanh toán không hợp lệ. Chọn: cod, bank, card, hoặc momo"
  const MissingPriceMessage := "Thiếu thông tin giá"
  const InvalidDataMessage := "Dữ liệu không hợp lệ"
  const OrderNotFoundMessage := "Không tìm thấy đơn hàng"
  const NoAccessMessage := "Không có quyền truy cập đơn hàng này"
  const NoCancelRightMessage := "Không có quyền hủy đơn hàng này"
  const InvalidOrderStatusMessage := "Trạng thái đơn hàng không hợp lệ"
  const InvalidPaymentStatusMessage := "Trạng thái thanh toán không hợp lệ"

  function MissingFieldsMessage(missing: seq<string>): string {
    MissingFieldsPrefix + Join(missing, ", ")
  }

  function CannotCancelMessage(s: OrderStatus): string {
    "Không thể hủy đơn hàng đang ở trạng thái \"" + OrderStatusName(s) + "\""
  }

  // ---------------------------------------------------- create: the checks

  const RequiredShippingFields: seq<string> := ["fullName", "email", "phone", "address", "city", "district"]

  /** `shippingInfo[field]`. */
  function ShippingField(info: ShippingInput, field: string): Field<string> {
    if field == "fullName" then info.fullName
    else if field == "email" then info.email
    else if field == "phone" then info.phone
    else if field == "address" then info.address
    else if field == "city" then info.city
    else if field == "district" then info.district
    else if field == "note" then info.note
    else Undefined
  }

  /** `a` is `b` with some elements left out, the rest kept in order. */
  predicate SubsequenceOf(a: seq<string>, b: seq<string>)
    decreases |b|
  {
    if |a| == 0 then true
    else if |b| == 0 then false
    else (a[0] == b[0] && SubsequenceOf(a[1..], b[1..])) || SubsequenceOf(a, b[1..])
  }

  /** `fields.filter(field => !shippingInfo[field])`: exactly the listed
      fields whose value is falsy, in the order of the list. */
  function MissingFields(info: ShippingInput, fields: seq<string>): (r: seq<string>)
    ensures forall f :: f in r <==> f in fields && !TruthyText(ShippingField(info, f))
    ensures SubsequenceOf(r, fields)
    ensures r == [] <==> forall f :: f in fields ==> TruthyText(ShippingField(info, f))
  {
    if |fields| == 0 then []
    else
      var rest := MissingFields(info, fields[1..]);
      if !TruthyText(ShippingField(info, fields[0])) then [fields[0]] + rest else rest
  }

  predicate ItemsPresent(body: OrderRequest) {
    body.orderItems.Value? && |body.orderItems.v| > 0
  }

  predicate PaymentMethodAccepted(m: Field<string>) {
    TruthyText(m) && ParsePaymentMethod(m.v).Some?
  }

  predicate PricesPresent(body: OrderRequest) {
    !body.itemsPrice.Undefined? && !body.shippingPrice.Undefined? && !body.totalPrice.Undefined?
  }

  /** The snapshot of one requested item: `productId`, falling back to
      `product`, then name, quantity and price as sent. */
  function ItemSnapshot(it: ItemInput): LineItemDoc {
    LineItemDoc(if it.productId.Value? then it.productId else it.product,
                it.name, it.quantity, it.price)
  }

  /** The document the handler builds once the checks pass. */
  function OrderDocument(user: Id, body: OrderRequest): OrderDoc
    requires body.orderItems.Value? && body.shippingInfo.Value?
  {
    var items := body.orderItems.v;
    var info := body.shippingInfo.v;
    OrderDoc(user,
             seq(|items|, i requires 0 <= i < |items| => ItemSnapshot(items[i])),
             ShippingDoc(info.fullName, info.email, info.phone, info.address, info.city,
                         info.district, if TruthyText(info.note) then info.note.v else ""),
             body.paymentMethod,
             Some("pending"),   // `paymentMethod === 'cod' ? 'pending' : 'pending'`
             body.itemsPrice, body.shippingPrice, body.totalPrice,
             Some("pending"))
  }

  /** createOrder: the first failing check decides the response; an order
      that passes them all is then validated by the schema on save. */
  function PlanOrder(user: Id, body: OrderRequest, id: Id, now: int): (r: Outcome<Order>)
    ensures r.Ok? || r.BadRequest?
    ensures r.Ok? ==> r.value.id == id && r.value.user == user && r.value.createdAt == now
                      && OrderSatisfiesSchema(r.value)
  {
    if !ItemsPresent(body) then BadRequest(EmptyCartMessage)
    else if !body.shippingInfo.Value? then BadRequest(MissingShippingMessage)
    else if |MissingFields(body.shippingInfo.v, RequiredShippingFields)| > 0 then
      BadRequest(MissingFieldsMessage(MissingFields(body.shippingInfo.v, RequiredShippingFields)))
    else if !PaymentMethodAccepted(body.paymentMethod) then BadRequest(InvalidPaymentMethodMessage)
    else if !PricesPresent(body) then BadRequest(MissingPriceMessage)
    else
      match ValidateOrder(OrderDocument(user, body), id, now)
      case None => BadRequest(InvalidDataMessage)
      case Some(o) => Ok(o)
  }

  // ------------------------------------------ create: the stated properties

  /** A request that the order workflow accepts, stated field by field
      without reference to the order of the checks. */
  predicate AcceptableRequest(body: OrderRequest) {
    && body.orderItems.Value? && |body.orderItems.v| > 0
    && (forall i :: 0 <= i < |body.orderItems.v| ==> LineItemDocValid(ItemSnapshot(body.orderItems.v[i])))
    && body.shippingInfo.Value?
    && (forall f :: f in RequiredShippingFields ==> TruthyText(ShippingField(body.shippingInfo.v, f)))
    && body.paymentMethod.Value? && body.paymentMethod.v in PaymentMethodNames
    && body.itemsPrice.Value? && body.shippingPrice.Value? && body.totalPrice.Value?
  }

  /** An order is created exactly for an acceptable request. */
  lemma CreateAcceptsExactly(user: Id, body: OrderRequest, id: Id, now: int)
    ensures PlanOrder(user, body, id, now).Ok? <==> AcceptableRequest(body)
  {
    if AcceptableRequest(body) {
      var info := body.shippingInfo.v;
      assert TruthyText(ShippingField(info, "fullName")) && TruthyText(ShippingField(info, "email"));
      assert TruthyText(ShippingField(info, "phone")) && TruthyText(ShippingField(info, "address"));
      assert TruthyText(ShippingField(info, "city")) && TruthyText(ShippingField(info, "district"));
      assert ParsePaymentStatus("pending").Some? && ParseOrderStatus("pending").Some?;
      var d := OrderDocument(user, body);
      assert forall i :: 0 <= i < |d.items| ==> d.items[i] == ItemSnapshot(body.orderItems.v[i]);
      assert OrderDocValid(d);
    }
    if PlanOrder(user, body, id, now).Ok? {
      var d := OrderDocument(user, body);
      assert OrderDocValid(d);
      forall i | 0 <= i < |body.orderItems.v|
        ensures LineItemDocValid(ItemSnapshot(body.orderItems.v[i]))
      {
        assert d.items[i] == ItemSnapshot(body.orderItems.v[i]);
      }
    }
  }

  /** Missing or empty `orderItems` is refused before anything else is
      looked at, and with the empty-cart message. */
  lemma CreateRejectsEmptyItems(user: Id, body: OrderRequest, id: Id, now: int)
    requires body.orderItems.Value? ==> body.orderItems.v == []
    ensures PlanOrder(user, body, id, now) == BadRequest(EmptyCartMessage)
  {
  }

  /** With items present, an absent or null shipping block is refused with
      the missing-shipping message before any field is looked at. */
  lemma CreateRejectsMissingShipping(user: Id, body: OrderRequest, id: Id, now: int)
    requires ItemsPresent(body) && !body.shippingInfo.Value?
    ensures PlanOrder(user, body, id, now) == BadRequest(MissingShippingMessage)
  {
  }

  /** With items present and a shipping block, the message lists exactly the
      required shipping fields that are missing, null or empty, in the order
      fullName, email, phone, address, city, district. */
  lemma CreateNamesMissingShippingFields(user: Id, body: OrderRequest, id: Id, now: int, missing: seq<string>)
    requires ItemsPresent(body) && body.shippingInfo.Value?
    requires SubsequenceOf(missing, RequiredShippingFields)
    requires forall f :: f in missing <==> f in RequiredShippingFields && !TruthyText(ShippingField(body.shippingInfo.v, f))
    requires missing != []
    ensures PlanOrder(user, body, id, now) == BadRequest(MissingFieldsMessage(missing))
  {
    MissingFieldsUnique(missing, MissingFields(body.shippingInfo.v, RequiredShippingFields),
                        RequiredShippingFields);
  }

  /** Over a list without repetitions, a subsequence is determined by its
      elements: the listed missing fields are unique. */
  lemma {:induction false} MissingFieldsUnique(a: seq<string>, b: seq<string>, fields: seq<string>)
    requires Sorting.NoRepeats(fields)
    requires SubsequenceOf(a, fields) && SubsequenceOf(b, fields)
    requires forall f :: f in a <==> f in b
    ensures a == b
    decreases |fields|
  {
    if |fields| == 0 {
      if |a| > 0 { assert false; }
      if |b| > 0 { assert false; }
    } else {
      var f0 := fields[0];
      var rest := fields[1..];
      assert Sorting.NoRepeats(rest);
      SubsequenceMembers(a, fields);
      SubsequenceMembers(b, fields);
      if f0 in a {
        assert |a| > 0 && a[0] == f0 && SubsequenceOf(a[1..], rest) by { SubsequenceHead(a, fields); }
        assert |b| > 0 && b[0] == f0 && SubsequenceOf(b[1..], rest) by { SubsequenceHead(b, fields); }
        SubsequenceExcludes(a[1..], rest, f0);
        SubsequenceExcludes(b[1..], rest, f0);
        forall f ensures f in a[1..] <==> f in b[1..] {
          assert a == [a[0]] + a[1..] && b == [b[0]] + b[1..];
          assert f in a <==> f == f0 || f in a[1..];
          assert f in b <==> f == f0 || f in b[1..];
        }
        MissingFieldsUnique(a[1..], b[1..], rest);
        assert a == [a[0]] + a[1..] && b == [b[0]] + b[1..];
      } else {
        SubsequenceSkip(a, fields);
        SubsequenceSkip(b, fields);
        MissingFieldsUnique(a, b, rest);
      }
    }
  }

  lemma {:induction false} SubsequenceMembers(a: seq<string>, b: seq<string>)
    requires SubsequenceOf(a, b)
    ensures forall x :: x in a ==> x in b
    decreases |b|
  {
    if |a| > 0 {
      if a[0] == b[0] && SubsequenceOf(a[1..], b[1..]) {
        SubsequenceMembers(a[1..], b[1..]);
        assert a == [a[0]] + a[1..] && b == [b[0]] + b[1..];
      } else {
        SubsequenceMembers(a, b[1..]);
      }
    }
  }

  /** A subsequence of a distinct list that holds its first element starts
      with it. */
  lemma {:induction false} SubsequenceHead(a: seq<string>, b: seq<string>)
    requires Sorting.NoRepeats(b) && |b| > 0 && SubsequenceOf(a, b) && b[0] in a
    ensures |a| > 0 && a[0] == b[0] && SubsequenceOf(a[1..], b[1..])
  {
    if !(a[0] == b[0] && SubsequenceOf(a[1..], b[1..])) {
      SubsequenceMembers(a, b[1..]);
    }
  }

  /** A subsequence of a distinct list without its first element lies in the
      rest of the list. */
  lemma {:induction false} SubsequenceSkip(a: seq<string>, b: seq<string>)
    requires |b| > 0 && SubsequenceOf(a, b) && b[0] !in a
    ensures SubsequenceOf(a, b[1..])
  {
  }

  lemma SubsequenceExcludes(a: seq<string>, rest: seq<string>, x: string)
    requires SubsequenceOf(a, rest) && x !in rest
    ensures x !in a
  {
    SubsequenceMembers(a, rest);
  }

  /** The payment method check: with items and complete shipping details,
      the invalid-method response is given exactly when the method is
      missing or not one of cod, bank, card, momo. */
  lemma CreatePaymentMethodGate(user: Id, body: OrderRequest, id: Id, now: int)
    requires ItemsPresent(body) && body.shippingInfo.Value?
    requires forall f :: f in RequiredShippingFields ==> TruthyText(ShippingField(body.shippingInfo.v, f))
    ensures PlanOrder(user, body, id, now) == BadRequest(InvalidPaymentMethodMessage)
            <==> !(body.paymentMethod.Value? && body.paymentMethod.v in PaymentMethodNames)
  {
  }

  /** The price check refuses only a price that is absent: zero, negative and
      null values get past it (a null price then fails the schema). */
  lemma CreatePriceGate(user: Id, body: OrderRequest, id: Id, now: int)
    requires ItemsPresent(body) && body.shippingInfo.Value?
    requires forall f :: f in RequiredShippingFields ==> TruthyText(ShippingField(body.shippingInfo.v, f))
    requires body.paymentMethod.Value? && body.paymentMethod.v in PaymentMethodNames
    ensures PlanOrder(user, body, id, now) == BadRequest(MissingPriceMessage)
            <==> (body.itemsPrice.Undefined? || body.shippingPrice.Undefined? || body.totalPrice.Undefined?)
    ensures (body.itemsPrice.Null? || body.shippingPrice.Null? || body.totalPrice.Null?) && PricesPresent(body)
            ==> PlanOrder(user, body, id, now) == BadRequest(InvalidDataMessage)
  {
  }

  /** A created order belongs to the requester, is pending and unpaid
      whatever the payment method, and holds a snapshot of every requested
      item: the product reference (`productId`, else `product`), name,
      quantity and price as sent. A missing note becomes the empty string. */
  lemma CreatedOrderSnapshot(user: Id, body: OrderRequest, id: Id, now: int)
    requires PlanOrder(user, body, id, now).Ok?
    ensures var o := PlanOrder(user, body, id, now).value;
      && o.id == id && o.user == user && o.createdAt == now
      && o.orderStatus == Pending && o.paymentStatus == PaymentPending
      && o.deliveredAt == None
      && |o.items| == |body.orderItems.v|
      && (forall i :: 0 <= i < |o.items| ==>
            var it := body.orderItems.v[i];
            && Value(o.items[i].product) == (if it.productId.Value? then it.productId else it.product)
            && Value(o.items[i].name) == it.name
            && Value(o.items[i].quantity) == it.quantity
            && Value(o.items[i].price) == it.price)
      && o.shipping.note == (if TruthyText(body.shippingInfo.v.note) then body.shippingInfo.v.note.v else "")
      && Value(o.itemsPrice) == body.itemsPrice && Value(o.totalPrice) == body.totalPrice
      && Value(o.shippingPrice) == body.shippingPrice
  {
    var d := OrderDocument(user, body);
    var o := ValidateOrder(d, id, now).value;
    forall i | 0 <= i < |o.items|
      ensures Value(o.items[i].product) == (if body.orderItems.v[i].productId.Value? then body.orderItems.v[i].productId else body.orderItems.v[i].product)
    {
      assert d.items[i] == ItemSnapshot(body.orderItems.v[i]);
    }
    EnumNamesRoundTrip();
  }

  // ------------------------------------------------------ reading and gates

  /** The owner-or-administrator gate of getOrder and cancelOrder. */
  predicate CanAccess(o: Order, r: Requester) {
    o.user == r.id || r.role == Admin
  }

  /** The administrator's status update on one order. A supplied (non-empty)
      status must name a value of its enumeration; either failing refuses the
      whole update. */
  function ApplyStatusUpdate(o: Order, orderStatus: Field<string>, paymentStatus: Field<string>, now: int)
    : (r: Outcome<Order>)
    ensures r.Ok? <==> (TruthyText(orderStatus) ==> orderStatus.v in OrderStatusNames)
                       && (TruthyText(paymentStatus) ==> paymentStatus.v in PaymentStatusNames)
    ensures !r.Ok? ==> r.BadRequest?
    ensures r.Ok? ==> r.value == o.(orderStatus := r.value.orderStatus,
                                    paymentStatus := r.value.paymentStatus,
                                    deliveredAt := r.value.deliveredAt)
    ensures r.Ok? && TruthyText(orderStatus) ==> OrderStatusName(r.value.orderStatus) == orderStatus.v
    ensures r.Ok? && !TruthyText(orderStatus) ==> r.value.orderStatus == o.orderStatus
    ensures r.Ok? && TruthyText(paymentStatus) ==> PaymentStatusName(r.value.paymentStatus) == paymentStatus.v
    ensures r.Ok? && !TruthyText(paymentStatus) ==> r.value.paymentStatus == o.paymentStatus
    ensures r.Ok? && orderStatus == Value("delivered") ==> r.value.deliveredAt == Some(now)
    ensures r.Ok? && orderStatus != Value("delivered") ==> r.value.deliveredAt == o.deliveredAt
  {
    if TruthyText(orderStatus) && ParseOrderStatus(orderStatus.v).None? then
      BadRequest(InvalidOrderStatusMessage)
    else
      var o1 := if TruthyText(orderStatus) then
                  var s := ParseOrderStatus(orderStatus.v).value;
                  o.(orderStatus := s, deliveredAt := if s == Delivered then Some(now) else o.deliveredAt)
                else o;
      if TruthyText(paymentStatus) && ParsePaymentStatus(paymentStatus.v).None? then
        BadRequest(InvalidPaymentStatusMessage)
      else if TruthyText(paymentStatus) then
        Ok(o1.(paymentStatus := ParsePaymentStatus(paymentStatus.v).value))
      else Ok(o1)
  }

  /** The administrator may move an order from any status to any status. */
  lemma AnyStatusReachable(o: Order, s: OrderStatus, now: int)
    ensures ApplyStatusUpdate(o, Value(OrderStatusName(s)), Undefined, now).Ok?
    ensures ApplyStatusUpdate(o, Value(OrderStatusName(s)), Undefined, now).value.orderStatus == s
  {
    EnumNamesRoundTrip();
  }

  /** cancelOrder on a found order: the owner-or-administrator gate, then the
      state-machine gate. */
  function CancelDecision(o: Order, r: Requester): (res: Outcome<Order>)
    ensures res.Ok? <==> CanAccess(o, r) && o.orderStatus in {Pending, Processing}
    ensures res.Ok? ==> res.value == o.(orderStatus := Cancelled)
    ensures !CanAccess(o, r) ==> res == Forbidden(NoCancelRightMessage)
    ensures CanAccess(o, r) && o.orderStatus !in {Pending, Processing}
            ==> res == BadRequest(CannotCancelMessage(o.orderStatus))
  {
    if !CanAccess(o, r) then Forbidden(NoCancelRightMessage)
    else if o.orderStatus != Pending && o.orderStatus != Processing then
      BadRequest(CannotCancelMessage(o.orderStatus))
    else Ok(o.(orderStatus := Cancelled))
  }

  /** A cancelled order cannot be cancelled again. */
  lemma CancelTwiceFails(o: Order, r: Requester)
    requires CancelDecision(o, r).Ok?
    ensures CancelDecision(CancelDecision(o, r).value, r) == BadRequest(CannotCancelMessage(Cancelled))
  {
  }

  /** The order listings sort by creation time, newest first. */
  const NewestFirst: (Order, Order) -> bool := (a: Order, b: Order) => a.createdAt >= b.createdAt

  lemma NewestFirstIsPreorder()
    ensures Sorting.TotalPreorder(NewestFirst)
  {
  }

  /** The stored orders with identifier below `n`, in identifier order,
      restricted to one owner when `owner` is given. */
  function Listed(orders: map<Id, Order>, n: nat, owner: Option<Id>): (r: seq<Order>)
    ensures forall o :: o in r ==> (owner.Some? ==> o.user == owner.value)
                                   && exists id :: 0 <= id < n && id in orders && orders[id] == o
    ensures forall id :: (0 <= id < n && id in orders
                          && (owner.Some? ==> orders[id].user == owner.value)) ==> orders[id] in r
    ensures (forall id :: id in orders ==> orders[id].id == id) ==>
              forall i, j :: 0 <= i < j < |r| ==> r[i].id < r[j].id
  {
    if n == 0 then []
    else
      var rest := Listed(orders, n - 1, owner);
      var id := n - 1;
      if id in orders && (owner.Some? ==> orders[id].user == owner.value) then
        assert (forall k :: k in orders ==> orders[k].id == k) ==> forall o :: o in rest ==> o.id < id;
        rest + [orders[id]]
      else rest
  }

  // ------------------------------------------------------------ the store

  class OrderStore {
    var orders: map<Id, Order>
    var nextId: nat

    /** Every stored order sits under its own identifier, satisfies the
        schema, and is stamped as delivered if its status is delivered. */
    ghost predicate Valid()
      reads this
    {
      forall id :: id in orders ==>
        && id < nextId && orders[id].id == id
        && OrderSatisfiesSchema(orders[id])
        && (orders[id].orderStatus == Delivered ==> orders[id].deliveredAt.Some?)
    }

    constructor ()
      ensures Valid() && orders == map[] && nextId == 0
    {
      orders := map[];
      nextId := 0;
    }

    /** POST /orders. The created order is stored under a fresh identifier;
        a refused request stores nothing. */
    method CreateOrder(requester: Requester, body: OrderRequest, now: int) returns (r: Outcome<Order>)
      requires Valid()
      modifies this
      ensures Valid()
      ensures r == PlanOrder(requester.id, body, old(nextId), now)
      ensures r.Ok? ==> old(nextId) !in old(orders) && orders == old(orders)[old(nextId) := r.value]
                        && nextId == old(nextId) + 1
      ensures !r.Ok? ==> orders == old(orders) && nextId == old(nextId)
    {
      r := PlanOrder(requester.id, body, nextId, now);
      if r.Ok? {
        CreatedOrderSnapshot(requester.id, body, nextId, now);
        orders := orders[nextId := r.value];
        nextId := nextId + 1;
      }
    }

    /** GET /orders/:id: not found, forbidden for a caller who is neither the
        owner nor an administrator, the stored order otherwise. */
    method GetOrder(requester: Requester, id: Id) returns (r: Outcome<Order>)
      ensures id !in orders ==> r == NotFound(OrderNotFoundMessage)
      ensures id in orders && !CanAccess(orders[id], requester) ==> r == Forbidden(NoAccessMessage)
      ensures id in orders && CanAccess(orders[id], requester) ==> r == Ok(orders[id])
    {
      if id !in orders {
        r := NotFound(OrderNotFoundMessage);
      } else if orders[id].user != requester.id && requester.role != Admin {
        r := Forbidden(NoAccessMessage);
      } else {
        r := Ok(orders[id]);
      }
    }

    /** GET /orders/myorders: every order of the caller and no other,
        newest first. */
    method GetMyOrders(requester: Requester) returns (rs: seq<Order>)
      requires Valid()
      ensures forall o :: o in rs ==> o.id in orders && orders[o.id] == o && o.user == requester.id
      ensures forall id :: id in orders && orders[id].user == requester.id ==> orders[id] in rs
      ensures Sorting.SortedBy(rs, NewestFirst)
      ensures forall i, j :: 0 <= i < j < |rs| ==> rs[i].id != rs[j].id
    {
      var listed := Listed(orders, nextId, Some(requester.id));
      NewestFirstIsPreorder();
      Sorting.InsertionSortCorrect(listed, NewestFirst);
      rs := Sorting.InsertionSort(listed, NewestFirst);
      Sorting.InsertionSortNoRepeats(listed, NewestFirst);
      forall i, j | 0 <= i < j < |rs| ensures rs[i].id != rs[j].id {
        assert rs[i] in multiset(listed) && rs[j] in multiset(listed);
      }
      forall o | o in rs ensures o in listed {
        assert o in multiset(rs);
      }
      forall id | id in orders && orders[id].user == requester.id ensures orders[id] in rs {
        assert orders[id] in multiset(listed);
      }
    }

    /** GET /orders (administrators only, by the route's middleware): every
        stored order, newest first. */
    method GetAllOrders() returns (rs: seq<Order>)
      requires Valid()
      ensures forall o :: o in rs ==> o.id in orders && orders[o.id] == o
      ensures forall id :: id in orders ==> orders[id] in rs
      ensures Sorting.SortedBy(rs, NewestFirst)
      ensures forall i, j :: 0 <= i < j < |rs| ==> rs[i].id != rs[j].id
    {
      var listed := Listed(orders, nextId, None);
      NewestFirstIsPreorder();
      Sorting.InsertionSortCorrect(listed, NewestFirst);
      rs := Sorting.InsertionSort(listed, NewestFirst);
      Sorting.InsertionSortNoRepeats(listed, NewestFirst);
      forall i, j | 0 <= i < j < |rs| ensures rs[i].id != rs[j].id {
        assert rs[i] in multiset(listed) && rs[j] in multiset(listed);
      }
      forall o | o in rs ensures o in listed {
        assert o in multiset(rs);
      }
      forall id | id in orders ensures orders[id] in rs {
        assert orders[id] in multiset(listed);
      }
    }

    /** PUT /orders/:id/status (administrators only, by the route's
        middleware). A refused update persists nothing, even when the order
        status was valid and only the payment status was not. */
    method UpdateOrderStatus(id: Id, orderStatus: Field<string>, paymentStatus: Field<string>, now: int)
      returns (r: Outcome<Order>)
      requires Valid()
      modifies this
      ensures Valid() && nextId == old(nextId)
      ensures id !in old(orders) ==> r == NotFound(OrderNotFoundMessage) && orders == old(orders)
      ensures id in old(orders) ==> r == ApplyStatusUpdate(old(orders)[id], orderStatus, paymentStatus, now)
      ensures r.Ok? ==> orders == old(orders)[id := r.value]
      ensures !r.Ok? ==> orders == old(orders)
    {
      if id !in orders {
        r := NotFound(OrderNotFoundMessage);
        return;
      }
      r := ApplyStatusUpdate(orders[id], orderStatus, paymentStatus, now);
      if r.Ok? {
        orders := orders[id := r.value];
      }
    }

    /** PUT /orders/:id/cancel. */
    method CancelOrder(requester: Requester, id: Id) returns (r: Outcome<Order>)
      requires Valid()
      modifies this
      ensures Valid() && nextId == old(nextId)
      ensures id !in old(orders) ==> r == NotFound(OrderNotFoundMessage) && orders == old(orders)
      ensures id in old(orders) ==> r == CancelDecision(old(orders)[id], requester)
      ensures r.Ok? ==> orders == old(orders)[id := r.value]
      ensures !r.Ok? ==> orders == old(orders)
    {
      if id !in orders {
        r := NotFound(OrderNotFoundMessage);
        return;
      }
      r := CancelDecision(orders[id], requester);
      if r.Ok? {
        orders := orders[id := r.value];
      }
    }
  }
}
