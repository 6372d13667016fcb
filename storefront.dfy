/** The browser side of the storefront: the shopping cart kept in the
    browser's local storage, its total and item count, checkout, the
    homepage slider and the category labels. */
module Storefront {
  import opened Common
  import opened OrderSchema
  import opened Orders
  import ProductSchema
  import Auth

  // ------------------------------------------------------------ the cart

  datatype CartItem = CartItem(productId: Id, name: string, price: int, image: string, quantity: int)

  const DefaultItemName := "Sản phẩm"
  const AddedMessage := "Đã thêm vào giỏ hàng"

  /** The cart's value: the sum of price times quantity. */
  function Total(cart: seq<CartItem>): (r: int)
    ensures (forall i :: 0 <= i < |cart| ==> cart[i].price >= 0 && cart[i].quantity >= 0) ==> r >= 0
  {
    if |cart| == 0 then 0 else cart[0].price * cart[0].quantity + Total(cart[1..])
  }

  /** The number shown on the cart badge: the sum of the quantities. */
  function Count(cart: seq<CartItem>): (r: int)
    ensures (forall i :: 0 <= i < |cart| ==> cart[i].quantity >= 0) ==> r >= 0
  {
    if |cart| == 0 then 0 else cart[0].quantity + Count(cart[1..])
  }

  /** A cart the operations below build: one entry per product, every
      quantity at least one, every name non-empty. */
  predicate WellFormed(cart: seq<CartItem>) {
    && (forall i :: 0 <= i < |cart| ==> cart[i].quantity >= 1 && cart[i].name != "")
    && DistinctIds(cart)
  }

  /** `cart.find(item => item.productId === productId)`, as a position. */
  function FirstMatch(cart: seq<CartItem>, productId: Id): (r: Option<nat>)
    ensures r.Some? ==> r.value < |cart| && cart[r.value].productId == productId
                        && forall j :: 0 <= j < r.value ==> cart[j].productId != productId
    ensures r.None? <==> forall j :: 0 <= j < |cart| ==> cart[j].productId != productId
  {
    if |cart| == 0 then None
    else if cart[0].productId == productId then Some(0)
    else match FirstMatch(cart[1..], productId)
      case None => None
      case Some(k) => Some(k + 1)
  }

  /** The entry with one more unit. */
  function Bumped(item: CartItem): CartItem {
    item.(quantity := item.quantity + 1)
  }

  /** The entry a new product gets: the name falls back to a generic label. */
  function NewItem(productId: Id, name: string, price: int, image: string): CartItem {
    CartItem(productId, if name == "" then DefaultItemName else name, price, image, 1)
  }

  /** addToCart on a cart value. */
  function AddItem(cart: seq<CartItem>, productId: Id, name: string, price: int, image: string)
    : (r: seq<CartItem>)
    ensures FirstMatch(r, productId).Some?
    ensures |r| == if FirstMatch(cart, productId).Some? then |cart| else |cart| + 1
  {
    match FirstMatch(cart, productId)
    case Some(k) =>
      var r := cart[k := Bumped(cart[k])];
      assert r[k].productId == productId;
      r
    case None =>
      var r := cart + [NewItem(productId, name, price, image)];
      assert r[|cart|].productId == productId;
      r
  }

  /** `cart.filter(item => item.productId !== productId)`. */
  function Kept(cart: seq<CartItem>, productId: Id): (r: seq<CartItem>)
    ensures |r| <= |cart|
    ensures forall x :: x in r <==> x in cart && x.productId != productId
    ensures (forall j :: 0 <= j < |cart| ==> cart[j].productId != productId) ==> r == cart
  {
    if |cart| == 0 then []
    else
      var rest := Kept(cart[1..], productId);
      assert forall x :: x in cart <==> x == cart[0] || x in cart[1..];
      if cart[0].productId != productId then [cart[0]] + rest else rest
  }

  /** Removal distributes over concatenation: the remaining entries keep
      their order and their multiplicity. */
  lemma {:induction false} KeptSplit(a: seq<CartItem>, b: seq<CartItem>, productId: Id)
    ensures Kept(a + b, productId) == Kept(a, productId) + Kept(b, productId)
  {
    if |a| == 0 {
      assert a + b == b;
      assert Kept(a, productId) == [];
    } else {
      var ab := a + b;
      assert ab[0] == a[0] && ab[1..] == a[1..] + b;
      KeptSplit(a[1..], b, productId);
      if a[0].productId != productId {
        calc {
          Kept(ab, productId);
          [a[0]] + Kept(a[1..] + b, productId);
          [a[0]] + (Kept(a[1..], productId) + Kept(b, productId));
          ([a[0]] + Kept(a[1..], productId)) + Kept(b, productId);
        }
      } else {
        calc {
          Kept(ab, productId);
          Kept(a[1..] + b, productId);
        }
      }
    }
  }

  /** The total quantity of the entries for one product. */
  function QuantityOf(cart: seq<CartItem>, productId: Id): int {
    if |cart| == 0 then 0
    else (if cart[0].productId == productId then cart[0].quantity else 0) + QuantityOf(cart[1..], productId)
  }

  /** The total value of the entries for one product. */
  function ValueOf(cart: seq<CartItem>, productId: Id): int {
    if |cart| == 0 then 0
    else (if cart[0].productId == productId then cart[0].price * cart[0].quantity else 0)
         + ValueOf(cart[1..], productId)
  }

  // ------------------------------------------------ properties of the folds

  lemma {:induction false} FoldsOfUpdate(cart: seq<CartItem>, k: nat, x: CartItem)
    requires k < |cart|
    ensures Count(cart[k := x]) == Count(cart) - cart[k].quantity + x.quantity
    ensures Total(cart[k := x]) == Total(cart) - cart[k].price * cart[k].quantity + x.price * x.quantity
  {
    if k > 0 {
      FoldsOfUpdate(cart[1..], k - 1, x);
      assert cart[k := x][1..] == cart[1..][k - 1 := x];
    } else {
      assert cart[k := x][1..] == cart[1..];
    }
  }

  lemma {:induction false} FoldsOfAppend(cart: seq<CartItem>, x: CartItem)
    ensures Count(cart + [x]) == Count(cart) + x.quantity
    ensures Total(cart + [x]) == Total(cart) + x.price * x.quantity
  {
    if |cart| > 0 {
      FoldsOfAppend(cart[1..], x);
      assert (cart + [x])[1..] == cart[1..] + [x];
    }
  }

  /** Removing a product takes exactly its quantities and value off the
      count and the total. */
  lemma {:induction false} FoldsOfRemoval(cart: seq<CartItem>, productId: Id)
    ensures Count(Kept(cart, productId)) == Count(cart) - QuantityOf(cart, productId)
    ensures Total(Kept(cart, productId)) == Total(cart) - ValueOf(cart, productId)
  {
    if |cart| > 0 {
      FoldsOfRemoval(cart[1..], productId);
    }
  }

  /** In a well-formed cart the count is zero exactly when the cart is
      empty. */
  lemma {:induction false} CountAtLeastLength(cart: seq<CartItem>)
    requires forall i :: 0 <= i < |cart| ==> cart[i].quantity >= 1
    ensures Count(cart) >= |cart|
    ensures Count(cart) == 0 <==> cart == []
  {
    if |cart| > 0 {
      CountAtLeastLength(cart[1..]);
    }
  }

  /** Adding a product raises the count by one and the total by that
      product's price (the price of the entry already in the cart, if
      any). */
  lemma AddRaisesFolds(cart: seq<CartItem>, productId: Id, name: string, price: int, image: string)
    ensures Count(AddItem(cart, productId, name, price, image)) == Count(cart) + 1
    ensures forall k :: FirstMatch(cart, productId) == Some(k) ==>
              Total(AddItem(cart, productId, name, price, image)) == Total(cart) + cart[k].price
    ensures FirstMatch(cart, productId).None? ==>
              Total(AddItem(cart, productId, name, price, image)) == Total(cart) + price
  {
    var r := AddItem(cart, productId, name, price, image);
    var m := FirstMatch(cart, productId);
    if m.Some? {
      var k := m.value;
      BumpFolds(cart, k);
      assert r == cart[k := Bumped(cart[k])];
    } else {
      FoldsOfAppend(cart, NewItem(productId, name, price, image));
      assert r == cart + [NewItem(productId, name, price, image)];
    }
  }

  /** One more unit of the entry at `k` adds one to the count and its price
      to the total. */
  lemma BumpFolds(cart: seq<CartItem>, k: nat)
    requires k < |cart|
    ensures Count(cart[k := Bumped(cart[k])]) == Count(cart) + 1
    ensures Total(cart[k := Bumped(cart[k])]) == Total(cart) + cart[k].price
  {
    var x := Bumped(cart[k]);
    var p, q := cart[k].price, cart[k].quantity;
    FoldsOfUpdate(cart, k, x);
    calc {
      Total(cart[k := x]);
      Total(cart) - p * q + p * (q + 1);
      { MulSucc(p, q); }
      Total(cart) + p;
    }
  }

  /** One more unit adds one price. */
  lemma MulSucc(p: int, q: int)
    ensures p * (q + 1) == p * q + p
  {
  }

  /** Adding a product touches only that product's entry: an entry already
      there gains one unit and keeps its name, price and image; otherwise one
      new entry with quantity one comes last, named "Sản phẩm" when the name
      is empty. */
  lemma AddTouchesOneEntry(cart: seq<CartItem>, productId: Id, name: string, price: int, image: string)
    requires WellFormed(cart)
    ensures var r := AddItem(cart, productId, name, price, image);
            && (forall j :: 0 <= j < |cart| && cart[j].productId != productId ==> r[j] == cart[j])
            && ((exists j :: 0 <= j < |cart| && cart[j].productId == productId) ==>
                  |r| == |cart| && QuantityOf(r, productId) == QuantityOf(cart, productId) + 1)
            && (forall j :: 0 <= j < |cart| && cart[j].productId == productId ==>
                  |r| == |cart| && r[j] == cart[j].(quantity := cart[j].quantity + 1))
            && ((forall j :: 0 <= j < |cart| ==> cart[j].productId != productId) ==>
                  r == cart + [CartItem(productId, if name == "" then DefaultItemName else name,
                                        price, image, 1)])
  {
    var r := AddItem(cart, productId, name, price, image);
    match FirstMatch(cart, productId)
    case Some(k) =>
      QuantityOfUpdate(cart, k, cart[k].(quantity := cart[k].quantity + 1));
    case None =>
  }

  lemma {:induction false} QuantityOfUpdate(cart: seq<CartItem>, k: nat, x: CartItem)
    requires k < |cart| && x.productId == cart[k].productId
    ensures QuantityOf(cart[k := x], x.productId) == QuantityOf(cart, x.productId) - cart[k].quantity + x.quantity
  {
    if k > 0 {
      QuantityOfUpdate(cart[1..], k - 1, x);
      assert cart[k := x][1..] == cart[1..][k - 1 := x];
    } else {
      assert cart[k := x][1..] == cart[1..];
    }
  }

  lemma AddKeepsWellFormed(cart: seq<CartItem>, productId: Id, name: string, price: int, image: string)
    requires WellFormed(cart)
    ensures WellFormed(AddItem(cart, productId, name, price, image))
  {
  }

  lemma KeptKeepsWellFormed(cart: seq<CartItem>, productId: Id)
    requires WellFormed(cart)
    ensures WellFormed(Kept(cart, productId))
  {
    var r := Kept(cart, productId);
    forall i | 0 <= i < |r| ensures r[i].quantity >= 1 && r[i].name != "" {
      assert r[i] in cart;
    }
    assert DistinctIds(cart);
    KeptDistinct(cart, productId);
  }

  /** No product has two entries. */
  predicate DistinctIds(s: seq<CartItem>) {
    forall i, j :: 0 <= i < j < |s| ==> s[i].productId != s[j].productId
  }

  lemma DistinctCons(x: CartItem, rest: seq<CartItem>)
    requires DistinctIds(rest) && forall y :: y in rest ==> y.productId != x.productId
    ensures DistinctIds([x] + rest)
  {
    var r := [x] + rest;
    forall i, j | 0 <= i < j < |r| ensures r[i].productId != r[j].productId {
      assert r[j] == rest[j - 1];
      if i > 0 {
        assert r[i] == rest[i - 1];
      }
    }
  }

  lemma DistinctTail(s: seq<CartItem>)
    requires |s| > 0 && DistinctIds(s)
    ensures DistinctIds(s[1..]) && forall y :: y in s[1..] ==> y.productId != s[0].productId
  {
    forall y | y in s[1..] ensures y.productId != s[0].productId {
      var j :| 0 <= j < |s[1..]| && s[1..][j] == y;
      assert s[j + 1] == y;
    }
    forall i, j | 0 <= i < j < |s[1..]| ensures s[1..][i].productId != s[1..][j].productId {
      assert s[1..][i] == s[i + 1] && s[1..][j] == s[j + 1];
    }
  }

  /** A removal leaves at most one entry per product. */
  lemma {:induction false} KeptDistinct(cart: seq<CartItem>, productId: Id)
    requires DistinctIds(cart)
    ensures DistinctIds(Kept(cart, productId))
  {
    if |cart| > 0 {
      DistinctTail(cart);
      KeptDistinct(cart[1..], productId);
      if cart[0].productId != productId {
        DistinctCons(cart[0], Kept(cart[1..], productId));
      }
    }
  }

  // ----------------------------------------------------------- checkout

  const FreeShippingThreshold := 2000000
  const ShippingFee := 50000
  const LoginFirstMessage := "Vui lòng đăng nhập"

  /** Free shipping from 2,000,000 up, a flat fee below. */
  function ShippingPrice(itemsPrice: int): (r: int)
    ensures r == 0 <==> itemsPrice >= FreeShippingThreshold
    ensures r == 0 || r == ShippingFee
  {
    if itemsPrice >= FreeShippingThreshold then 0 else ShippingFee
  }

  /** The order request the browser sends for a cart. */
  function CheckoutRequest(cart: seq<CartItem>, shippingInfo: Field<ShippingInput>, paymentMethod: Field<string>)
    : (r: OrderRequest)
    ensures r.orderItems.Value? && |r.orderItems.v| == |cart|
    ensures r.shippingInfo == shippingInfo && r.paymentMethod == paymentMethod
  {
    var itemsPrice := Total(cart);
    OrderRequest(Value(seq(|cart|, i requires 0 <= i < |cart| =>
                             ItemInput(Undefined, Value(cart[i].productId), Value(cart[i].name),
                                       Value(cart[i].quantity), Value(cart[i].price)))),
                 shippingInfo, paymentMethod,
                 Value(itemsPrice), Value(ShippingPrice(itemsPrice)),
                 Value(itemsPrice + ShippingPrice(itemsPrice)))
  }

  /** The prices sent are the cart's total, the shipping price for it and
      their sum; the shipping is free exactly from the threshold up. */
  lemma CheckoutPrices(cart: seq<CartItem>, shippingInfo: Field<ShippingInput>, paymentMethod: Field<string>)
    ensures var r := CheckoutRequest(cart, shippingInfo, paymentMethod);
            && r.itemsPrice == Value(Total(cart))
            && r.totalPrice == Value(r.itemsPrice.v + r.shippingPrice.v)
            && (Total(cart) >= FreeShippingThreshold ==> r.totalPrice == Value(Total(cart)))
            && (Total(cart) < FreeShippingThreshold ==> r.totalPrice == Value(Total(cart) + ShippingFee))
  {
  }

  /** End to end: a non-empty well-formed cart, a complete shipping block and
      a known payment method make the server create an order that holds the
      cart's lines and the prices the browser computed. */
  lemma CheckoutAccepted(cart: seq<CartItem>, info: ShippingInput, m: PaymentMethod,
                         user: Id, id: Id, now: int)
    requires WellFormed(cart) && |cart| > 0
    requires forall f :: f in RequiredShippingFields ==> TruthyText(ShippingField(info, f))
    ensures var o := PlanOrder(user, CheckoutRequest(cart, Value(info), Value(PaymentMethodName(m))), id, now);
            && o.Ok?
            && o.value.user == user && o.value.paymentMethod == m
            && o.value.itemsPrice == Total(cart)
            && o.value.totalPrice == Total(cart) + ShippingPrice(Total(cart))
            && |o.value.items| == |cart|
            && (forall i :: 0 <= i < |cart| ==>
                  o.value.items[i] == LineItem(cart[i].productId, cart[i].name, cart[i].quantity, cart[i].price))
  {
    var body := CheckoutRequest(cart, Value(info), Value(PaymentMethodName(m)));
    assert PaymentMethodName(m) in PaymentMethodNames by { EnumNamesRoundTrip(); }
    assert AcceptableRequest(body);
    CreateAcceptsExactly(user, body, id, now);
    CreatedOrderSnapshot(user, body, id, now);
    var o := PlanOrder(user, body, id, now).value;
    assert ParsePaymentMethod(PaymentMethodName(m)) == Some(m) by { EnumNamesRoundTrip(); }
    assert PaymentMethodName(o.paymentMethod) == PaymentMethodName(m) by {
      var d := OrderDocument(user, body);
      assert ValidateOrder(d, id, now) == Some(o);
    }
    assert ParsePaymentMethod(PaymentMethodName(o.paymentMethod)) == Some(o.paymentMethod) by { EnumNamesRoundTrip(); }
  }

  datatype CheckoutResult = NotLoggedIn(message: string) | Sent(request: OrderRequest, accepted: bool)

  /** The browser's local storage: the cart under its key (absent after a
      clear) and the signed-in user. */
  class BrowserStorage {
    var cart: Option<seq<CartItem>>
    var currentUser: Option<Auth.Session>

    constructor ()
      ensures cart == None && currentUser == None
    {
      cart := None;
      currentUser := None;
    }

    /** getCart: the stored cart, or an empty one when there is none. */
    function Cart(): seq<CartItem>
      reads this
    {
      if cart.Some? then cart.value else []
    }

    /** getCartTotal. */
    function CartTotal(): int
      reads this
    {
      Total(Cart())
    }

    /** The count shown by updateCartCount. */
    function CartCount(): int
      reads this
    {
      Count(Cart())
    }

    method AddToCart(productId: Id, name: string, price: int, image: string) returns (message: string)
      modifies this
      ensures cart == Some(AddItem(old(Cart()), productId, name, price, image))
      ensures currentUser == old(currentUser) && message == AddedMessage
      ensures CartCount() == old(CartCount()) + 1
      ensures WellFormed(old(Cart())) ==> WellFormed(Cart())
    {
      var items := Cart();
      AddRaisesFolds(items, productId, name, price, image);
      if WellFormed(items) {
        AddKeepsWellFormed(items, productId, name, price, image);
      }
      var k := FirstMatch(items, productId);
      if k.Some? {
        items := items[k.value := items[k.value].(quantity := items[k.value].quantity + 1)];
      } else {
        items := items + [NewItem(productId, name, price, image)];
      }
      cart := Some(items);
      message := AddedMessage;
    }

    method RemoveFromCart(productId: Id)
      modifies this
      ensures cart == Some(Kept(old(Cart()), productId))
      ensures currentUser == old(currentUser)
      ensures CartCount() == old(CartCount()) - QuantityOf(old(Cart()), productId)
      ensures CartTotal() == old(CartTotal()) - ValueOf(old(Cart()), productId)
      ensures WellFormed(old(Cart())) ==> WellFormed(Cart())
    {
      FoldsOfRemoval(Cart(), productId);
      if WellFormed(Cart()) {
        KeptKeepsWellFormed(Cart(), productId);
      }
      cart := Some(Kept(Cart(), productId));
    }

    /** updateQuantity: nothing happens for a product not in the cart; a
        quantity of zero or less removes it; otherwise its first entry takes
        the new quantity. */
    method UpdateQuantity(productId: Id, quantity: int)
      modifies this
      ensures currentUser == old(currentUser)
      ensures FirstMatch(old(Cart()), productId).None? ==> cart == old(cart)
      ensures FirstMatch(old(Cart()), productId).Some? && quantity <= 0 ==>
                cart == Some(Kept(old(Cart()), productId))
      ensures FirstMatch(old(Cart()), productId).Some? && quantity > 0 ==>
                var k := FirstMatch(old(Cart()), productId).value;
                && cart == Some(old(Cart())[k := old(Cart())[k].(quantity := quantity)])
                && CartCount() == old(CartCount()) - old(Cart())[k].quantity + quantity
      ensures WellFormed(old(Cart())) ==> WellFormed(Cart())
    {
      var items := Cart();
      var k := FirstMatch(items, productId);
      if k.Some? {
        if quantity <= 0 {
          RemoveFromCart(productId);
        } else {
          FoldsOfUpdate(items, k.value, items[k.value].(quantity := quantity));
          items := items[k.value := items[k.value].(quantity := quantity)];
          cart := Some(items);
        }
      }
    }

    method ClearCart()
      modifies this
      ensures cart == None && currentUser == old(currentUser)
      ensures Cart() == [] && CartTotal() == 0 && CartCount() == 0
    {
      cart := None;
    }

    /** createOrder in the browser. Without a signed-in user nothing is sent.
        Otherwise the request for the current cart is sent; `serverAccepts`
        is the server's verdict on it, and the cart is cleared only when the
        server reports success. */
    method Checkout(shippingInfo: Field<ShippingInput>, paymentMethod: Field<string>,
                    serverAccepts: OrderRequest -> bool)
      returns (r: CheckoutResult)
      modifies this
      ensures currentUser == old(currentUser)
      ensures old(currentUser).None? ==> r == NotLoggedIn(LoginFirstMessage) && cart == old(cart)
      ensures old(currentUser).Some? ==>
                var request := CheckoutRequest(old(Cart()), shippingInfo, paymentMethod);
                r == Sent(request, serverAccepts(request))
      ensures r.Sent? && r.accepted ==> cart == None
      ensures !(r.Sent? && r.accepted) ==> cart == old(cart)
    {
      if currentUser.None? {
        r := NotLoggedIn(LoginFirstMessage);
        return;
      }
      var request := CheckoutRequest(Cart(), shippingInfo, paymentMethod);
      var accepted := serverAccepts(request);
      if accepted {
        ClearCart();
      }
      r := Sent(request, accepted);
    }
  }

  // ------------------------------------------------------------- the slider

  /** The index after a step: past the end wraps to the first slide, before
      the start to the last. */
  function Wrapped(i: int, n: int): (r: int)
    requires n > 0
    ensures 0 <= r < n
  {
    if i >= n then 0 else if i < 0 then n - 1 else i
  }

  /** One step forwards or backwards from a slide is that step modulo the
      number of slides. */
  lemma StepIsModular(i: int, d: int, n: int)
    requires n > 0 && 0 <= i < n && (d == 1 || d == -1)
    ensures Wrapped(i + d, n) == (i + d) % n
  {
  }

  /** The index after `k` forward steps. */
  function Forward(i: int, n: int, k: nat): int
    requires n > 0
  {
    if k == 0 then i else Wrapped(Forward(i, n, k - 1) + 1, n)
  }

  /** Within one round, `k` forward steps from slide `i` count on from `i`
      and wrap once past the last slide. */
  lemma {:induction false} ForwardWithinRound(i: int, n: int, k: nat)
    requires n > 0 && 0 <= i < n && k <= n
    ensures Forward(i, n, k) == if i + k < n then i + k else i + k - n
  {
    if k > 0 {
      ForwardWithinRound(i, n, k - 1);
    }
  }

  lemma {:induction false} ForwardCompose(i: int, n: int, a: nat, b: nat)
    requires n > 0
    ensures Forward(i, n, a + b) == Forward(Forward(i, n, a), n, b)
  {
    if b > 0 {
      ForwardCompose(i, n, a, b - 1);
    }
  }

  /** Auto-advancing is periodic: after as many steps as there are slides
      the slider is back where it started. */
  lemma ForwardPeriodic(i: int, n: int, k: nat)
    requires n > 0 && 0 <= i < n
    ensures Forward(i, n, n) == i
    ensures Forward(i, n, n + k) == Forward(i, n, k)
  {
    ForwardWithinRound(i, n, n);
    ForwardCompose(i, n, n, k);
  }

  /** The homepage slider: the index of the active slide. The number of
      slides is a parameter; the page has as many dots as slides. */
  class Slider {
    var index: int

    constructor ()
      ensures index == 0
    {
      index := 0;
    }

    /** changeSlide: with no slides nothing happens; an active index that
        names no slide makes the page script throw before anything changes;
        otherwise the index moves by `direction` and wraps around. */
    method ChangeSlide(slides: nat, direction: int) returns (ok: bool)
      modifies this
      ensures ok <==> slides == 0 || 0 <= old(index) < slides
      ensures slides == 0 || !ok ==> index == old(index)
      ensures slides > 0 && ok ==> index == Wrapped(old(index) + direction, slides) && 0 <= index < slides
    {
      if slides == 0 {
        return true;
      }
      if !(0 <= index < slides) {
        return false;
      }
      index := index + direction;
      if index >= slides {
        index := 0;
      }
      if index < 0 {
        index := slides - 1;
      }
      ok := true;
    }

    /** currentSlide: the index is set before the new slide is looked up, so
        an out-of-range index is kept even though the script throws. */
    method CurrentSlide(slides: nat, target: int) returns (ok: bool)
      modifies this
      ensures slides == 0 ==> ok && index == old(index)
      ensures slides > 0 && !(0 <= old(index) < slides) ==> !ok && index == old(index)
      ensures slides > 0 && 0 <= old(index) < slides ==> index == target && (ok <==> 0 <= target < slides)
    {
      if slides == 0 {
        return true;
      }
      if !(0 <= index < slides) {
        return false;
      }
      index := target;
      ok := 0 <= target < slides;
    }
  }

  // ------------------------------------------------------ category labels

  const CategoryLabels: map<string, string> :=
    map["men" := "Thời Trang Nam", "women" := "Thời Trang Nữ", "accessories" := "Phụ Kiện",
        "new" := "Hàng Mới", "sale" := "Giảm Giá"]

  /** getCategoryName: the label of a known key, the key itself otherwise. */
  function CategoryLabel(key: string): (r: string)
    ensures key in CategoryLabels ==> r == CategoryLabels[key] && r != key
    ensures key !in CategoryLabels ==> r == key
  {
    if key in CategoryLabels && CategoryLabels[key] != "" then CategoryLabels[key] else key
  }

  /** Every product category and badge has a label of its own. */
  lemma EveryCatalogueKeyLabelled()
    ensures forall c: ProductSchema.Category :: CategoryLabel(ProductSchema.CategoryName(c)) != ProductSchema.CategoryName(c)
    ensures forall b: ProductSchema.Badge :: CategoryLabel(ProductSchema.BadgeName(b)) != ProductSchema.BadgeName(b)
    ensures CategoryLabel("men") == "Thời Trang Nam" && CategoryLabel("women") == "Thời Trang Nữ"
    ensures CategoryLabel("accessories") == "Phụ Kiện"
    ensures CategoryLabel("new") == "Hàng Mới" && CategoryLabel("sale") == "Giảm Giá"
  {
  }
}
