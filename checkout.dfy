/** The cart page's checkout (AnticcaReale-main/src/pages/CartPage.tsx): the order built
    from the cart, the payment request handed to Shopier, and the quantity buttons. */
module CartPage {
  import opened Types
  import opened Text

  /** A cart line, as the cart context holds it. */
  datatype CartItem = CartItem(productId: string, product: Product, quantity: int)

  /** One order line per cart line. */
  function OrderItemOf(item: CartItem): OrderItem
  {
    OrderItem(item.productId, item.product.name,
              if |item.product.images| > 0 then item.product.images[0] else "",
              item.product.shopId, "", item.quantity, item.product.price)
  }

  /** `orderItems`: the cart lines in order, each copying the product id, the quantity and
      the product's current price. */
  function OrderItems(items: seq<CartItem>): (r: seq<OrderItem>)
    ensures |r| == |items|
    ensures forall i :: 0 <= i < |r| ==>
      && r[i].productId == items[i].productId
      && r[i].quantity == items[i].quantity
      && r[i].price == items[i].product.price
      && r[i].productName == items[i].product.name
      && r[i].shopId == items[i].product.shopId
  {
    seq(|items|, i requires 0 <= i < |items| => OrderItemOf(items[i]))
  }

  /** The `productName` of the payment request. */
  function PaymentProductName(items: seq<CartItem>): string
  {
    if |items| == 1 then items[0].product.name
    else "Anticca Sipariş (" + NatToString(|items|) + " ürün)"
  }

  /** A single-item cart is paid under the item's name; any other cart under a generic
      name from which the number of items can be read back. */
  lemma PaymentProductNameContract(items: seq<CartItem>)
    ensures |items| == 1 ==> PaymentProductName(items) == items[0].product.name
    ensures |items| != 1 ==>
      exists digits ::
        && PaymentProductName(items) == "Anticca Sipariş (" + digits + " ürün)"
        && (forall i :: 0 <= i < |digits| ==> '0' <= digits[i] <= '9')
        && DigitsValue(digits) == |items|
  {
    if |items| != 1 {
      NatToStringRoundTrip(|items|);
      var digits := NatToString(|items|);
      assert PaymentProductName(items) == "Anticca Sipariş (" + digits + " ürün)";
    }
  }

  /** The "+" button is enabled only below the stock. */
  predicate CanIncrease(item: CartItem)
  {
    !(item.quantity >= item.product.stock)
  }

  /** Pressing an enabled "+" never takes the quantity past the stock. */
  lemma IncreaseStaysInStock(item: CartItem)
    requires CanIncrease(item)
    ensures item.quantity + 1 <= item.product.stock
  {
  }

  datatype PaymentStep = Idle | CreatingOrder | Redirecting

  /** The part of the Shopier payment request built here. */
  datatype PaymentRequest = PaymentRequest(
    orderIndex: nat, orderAmount: int, productName: string, buyerId: string,
    buyerEmail: string, address: string)

  /** The checkout state: the orders created so far (`createOrder`), the cart, the page's
      own state, the page navigated to and the payment request started. */
  class Checkout {
    var orders: seq<Order>
    var items: seq<CartItem>
    var error: string
    var loading: bool
    var paymentStep: PaymentStep
    var navigatedTo: Option<string>
    var payment: Option<PaymentRequest>

    constructor (cart: seq<CartItem>, existing: seq<Order>)
      ensures items == cart && orders == existing
      ensures error == "" && !loading && paymentStep == Idle && navigatedTo == None && payment == None
    {
      orders := existing;
      items := cart;
      error := "";
      loading := false;
      paymentStep := Idle;
      navigatedTo := None;
      payment := None;
    }

    /** `handleShopierCheckout`; `totalPrice` comes from the cart context. */
    method HandleShopierCheckout(user: Option<User>, totalPrice: int)
      modifies this
      ensures user.None? ==>
        && navigatedTo == Some("/login?redirect=/cart")
        && orders == old(orders) && items == old(items) && payment == old(payment)
        && error == old(error) && paymentStep == old(paymentStep) && loading == old(loading)
      ensures user.Some? && (user.value.name == "" || user.value.email == "") ==>
        && error == "Lütfen profil bilgilerinizi tamamlayın."
        && orders == old(orders) && items == old(items) && payment == old(payment)
        && navigatedTo == old(navigatedTo) && paymentStep == old(paymentStep)
        && loading == old(loading)
      ensures user.Some? && user.value.name != "" && user.value.email != "" ==>
        && orders == old(orders) + [Order(user.value.uid, user.value.email, user.value.name,
                                          user.value.phone, user.value.address,
                                          OrderItems(old(items)), totalPrice, AwaitingPayment)]
        && items == [] && navigatedTo == old(navigatedTo)
        && error == "" && !loading && paymentStep == Redirecting
        && payment == Some(PaymentRequest(|old(orders)|, totalPrice, PaymentProductName(old(items)),
             user.value.uid, user.value.email,
             if user.value.address.Some? && user.value.address.value != "" then user.value.address.value
             else "Adres belirtilmemiş"))
    {
      if user.None? {
        navigatedTo := Some("/login?redirect=/cart");
        return;
      }
      var userData := user.value;
      if userData.name == "" || userData.email == "" {
        error := "Lütfen profil bilgilerinizi tamamlayın.";
        return;
      }
      loading := true;
      error := "";
      paymentStep := CreatingOrder;

      var orderItems := OrderItems(items);
      var orderIndex := |orders|;
      orders := orders + [Order(userData.uid, userData.email, userData.name, userData.phone,
                                userData.address, orderItems, totalPrice, AwaitingPayment)];
      paymentStep := Redirecting;

      var address := if userData.address.Some? && userData.address.value != "" then userData.address.value
                     else "Adres belirtilmemiş";
      var request := PaymentRequest(orderIndex, totalPrice, PaymentProductName(items), userData.uid,
                                    userData.email, address);
      items := [];
      payment := Some(request);
      loading := false;
    }
  }
}
