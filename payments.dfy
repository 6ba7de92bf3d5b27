/** The payment back end (AnticcaReale-main/firebase-functions/src/index.ts): the Shopier
    payment session, the webhook and the browser callback that report a payment, and the
    two handlers that pull an order's state from Shopier. Each handler is one atomic step
    over the `payments` and `orders` collections; the HMAC, the random nonce, the Shopier
    HTTP API and the server clock are parameters. */
module Payments {
  import opened Types
  import opened Text

  datatype PaymentStatus = Pending | Completed | Failed

  /** The buyer block stored with a payment. */
  datatype BuyerData = BuyerData(
    id: string, productName: string, firstName: string, lastName: string,
    email: string, phone: string, address: string, city: string, country: string)

  /** A document of the `payments` collection, keyed by order id. Optional strings are
      `None` while the field has never been written. */
  datatype PaymentRecord = PaymentRecord(
    orderId: string,
    amount: int,
    buyer: BuyerData,
    randomNr: string,
    status: PaymentStatus,
    createdAt: int,
    shopierPaymentId: Option<string>,
    shopierStatus: Option<string>,
    installment: string,
    webhookReceivedAt: Option<int>,
    callbackReceived: bool,
    callbackStatus: Option<string>,
    callbackReceivedAt: Option<int>)

  /** One order as Shopier's order API reports it. */
  datatype ShopierOrder = ShopierOrder(
    paymentStatus: string, paymentId: string, totalAmount: int, installment: string)

  /** The fields of an `orders` document the payment handlers read or write. */
  datatype OrderDoc = OrderDoc(
    status: OrderStatus,
    shopierTransactionId: Option<string>,
    paidAt: Option<int>,
    updatedAt: Option<int>,
    shopierSyncedAt: Option<int>,
    shopierOrderData: Option<ShopierOrder>)

  /** The two collections. */
  datatype Db = Db(payments: map<string, PaymentRecord>, orders: map<string, OrderDoc>)

  /** What Shopier posts to the webhook, or sends to the callback. `paymentId` is `None`
      when the field is missing; `installment` and `signature` are "" when missing. */
  datatype Notification = Notification(
    platformOrderId: string, status: string, paymentId: Option<string>,
    randomNr: string, signature: string, installment: string)

  /** `verifyShopierSignature`: the signature must be the HMAC of the nonce, the order id
      and the status, concatenated. `hmac(data, secret)` stands for the SHA-256 HMAC in
      base 64. */
  predicate Authentic(n: Notification, secret: string, hmac: (string, string) -> string)
  {
    n.signature == hmac(n.randomNr + n.platformOrderId + n.status, secret)
  }

  /** `installment || 0`, for an installment count carried as text. */
  function OrZero(installment: string): string
  {
    if installment == "" then "0" else installment
  }

  // ---------------------------------------------------------------- shopierWebhook

  datatype WebhookReply =
    | MethodNotAllowed     // 405
    | ConfigError          // 500: no API secret
    | InvalidSignature     // 400
    | PaymentNotFound      // 404
    | AlreadyProcessed     // 200: this payment id was recorded before
    | Processed            // 200
    | OrderUpdateFailed    // 500: `update` on a missing order throws after the payment was written

  function WebhookCode(r: WebhookReply): int
  {
    match r
    case MethodNotAllowed => 405
    case ConfigError => 500
    case InvalidSignature => 400
    case PaymentNotFound => 404
    case AlreadyProcessed => 200
    case Processed => 200
    case OrderUpdateFailed => 500
  }

  /** The payment document after a processed notification. */
  function WebhookPayment(p: PaymentRecord, n: Notification, now: int): PaymentRecord
  {
    p.(status := if n.status == "success" then Completed else Failed,
       shopierPaymentId := n.paymentId,
       shopierStatus := Some(n.status),
       installment := OrZero(n.installment),
       webhookReceivedAt := Some(now))
  }

  /** The order document after a processed notification, whatever its status was. */
  function WebhookOrder(o: OrderDoc, n: Notification, now: int): OrderDoc
  {
    if n.status == "success" then
      o.(status := Paid, shopierTransactionId := n.paymentId, paidAt := Some(now), updatedAt := Some(now))
    else
      o.(status := Cancelled, updatedAt := Some(now))
  }

  /** `shopierWebhook` as one step over the database. */
  function Webhook(db: Db, n: Notification, isPost: bool, secret: string,
                   hmac: (string, string) -> string, now: int): (out: (WebhookReply, Db))
    ensures out.1 != db ==>
      && isPost && secret != "" && Authentic(n, secret, hmac)
      && n.platformOrderId in db.payments
      && db.payments[n.platformOrderId].shopierPaymentId != n.paymentId
    ensures out.1 != db ==>
      && out.1.payments.Keys == db.payments.Keys
      && out.1.orders.Keys == db.orders.Keys
      && (forall id :: id in db.payments && id != n.platformOrderId ==> out.1.payments[id] == db.payments[id])
      && (forall id :: id in db.orders && id != n.platformOrderId ==> out.1.orders[id] == db.orders[id])
      && out.1.payments[n.platformOrderId].status == (if n.status == "success" then Completed else Failed)
      && out.1.payments[n.platformOrderId].shopierPaymentId == n.paymentId
    ensures out.0 == Processed ==>
      && n.platformOrderId in out.1.orders
      && out.1.orders[n.platformOrderId].status == (if n.status == "success" then Paid else Cancelled)
      && (n.status == "success" ==> out.1.orders[n.platformOrderId].shopierTransactionId == n.paymentId)
    ensures isPost && secret != "" && !Authentic(n, secret, hmac) ==> out == (InvalidSignature, db)
    ensures isPost && secret != "" && Authentic(n, secret, hmac) && n.platformOrderId !in db.payments ==>
      out == (PaymentNotFound, db)
  {
    var id := n.platformOrderId;
    if !isPost then (MethodNotAllowed, db)
    else if secret == "" then (ConfigError, db)
    else if !Authentic(n, secret, hmac) then (InvalidSignature, db)
    else if id !in db.payments then (PaymentNotFound, db)
    else if db.payments[id].shopierPaymentId == n.paymentId then (AlreadyProcessed, db)
    else
      var payments := db.payments[id := WebhookPayment(db.payments[id], n, now)];
      if id !in db.orders then (OrderUpdateFailed, Db(payments, db.orders))
      else (Processed, Db(payments, db.orders[id := WebhookOrder(db.orders[id], n, now)]))
  }

  /** Delivering the same notification again changes nothing and is answered
      "already processed", whatever the first delivery did. */
  lemma WebhookIdempotent(db: Db, n: Notification, secret: string,
                          hmac: (string, string) -> string, now: int, later: int)
    requires Webhook(db, n, true, secret, hmac, now).0 in {Processed, AlreadyProcessed, OrderUpdateFailed}
    ensures var after := Webhook(db, n, true, secret, hmac, now).1;
      Webhook(after, n, true, secret, hmac, later) == (AlreadyProcessed, after)
  {
  }

  /** A notification without a payment id, for a payment no notification has reached yet,
      is taken for a repeat: both ids are missing, so they compare equal. */
  lemma MissingPaymentIdIsIgnored(db: Db, n: Notification, secret: string,
                                  hmac: (string, string) -> string, now: int)
    requires secret != "" && Authentic(n, secret, hmac) && n.paymentId.None?
    requires n.platformOrderId in db.payments && db.payments[n.platformOrderId].shopierPaymentId.None?
    ensures Webhook(db, n, true, secret, hmac, now) == (AlreadyProcessed, db)
  {
  }

  // ---------------------------------------------------------------- shopierCallback

  /** Where the callback redirects the browser. */
  datatype CallbackReply =
    | SignatureErrorPage(orderId: string)
    | SuccessPage(orderId: string, paymentId: string, installment: string)
    | FailPage(orderId: string, status: string)

  /** `x || ''` for an optional string. */
  function OrEmpty(s: Option<string>): string
  {
    if s.Some? then s.value else ""
  }

  /** The writes of a successful callback for a non-empty order id. */
  function CallbackWrites(db: Db, n: Notification, now: int): Db
  {
    var id := n.platformOrderId;
    var payments :=
      if id in db.payments then
        db.payments[id := db.payments[id].(
          callbackReceived := true, callbackStatus := Some(n.status),
          shopierPaymentId := Some(OrEmpty(n.paymentId)),
          installment := OrZero(n.installment), callbackReceivedAt := Some(now))]
      else db.payments;
    var orders :=
      if id in db.orders && db.orders[id].status == AwaitingPayment then
        db.orders[id := db.orders[id].(
          status := Paid, shopierTransactionId := Some(OrEmpty(n.paymentId)),
          paidAt := Some(now), updatedAt := Some(now))]
      else db.orders;
    Db(payments, orders)
  }

  /** `shopierCallback`: the signature is checked only when both it and the secret are
      present. */
  function Callback(db: Db, n: Notification, secret: string,
                    hmac: (string, string) -> string, now: int): (out: (CallbackReply, Db))
    ensures n.signature != "" && secret != "" && !Authentic(n, secret, hmac) ==>
      out == (SignatureErrorPage(n.platformOrderId), db)
    ensures n.status != "success" ==> out.1 == db && !out.0.SuccessPage?
    ensures out.1.payments.Keys == db.payments.Keys && out.1.orders.Keys == db.orders.Keys
    ensures forall id :: id in db.orders ==>
      && (out.1.orders[id].status != db.orders[id].status ==>
            id == n.platformOrderId && db.orders[id].status == AwaitingPayment && out.1.orders[id].status == Paid)
    ensures forall id :: id in db.payments && id != n.platformOrderId ==> out.1.payments[id] == db.payments[id]
    ensures out.0.SuccessPage? <==>
      n.status == "success" && !(n.signature != "" && secret != "" && !Authentic(n, secret, hmac))
    // a successful callback writes exactly the callback's fields, and nothing for an empty order id
    ensures out.0.SuccessPage? && n.platformOrderId == "" ==> out.1 == db
    ensures out.0.SuccessPage? && n.platformOrderId != "" ==> out.1 == CallbackWrites(db, n, now)
    ensures out.0.SuccessPage? && n.platformOrderId != "" && n.platformOrderId in db.payments ==>
      var p := out.1.payments[n.platformOrderId];
      && p.callbackReceived && p.callbackStatus == Some("success")
      && p.shopierPaymentId == Some(OrEmpty(n.paymentId))
      && p.installment == OrZero(n.installment) && p.callbackReceivedAt == Some(now)
      && p.(callbackReceived := db.payments[n.platformOrderId].callbackReceived,
            callbackStatus := db.payments[n.platformOrderId].callbackStatus,
            shopierPaymentId := db.payments[n.platformOrderId].shopierPaymentId,
            installment := db.payments[n.platformOrderId].installment,
            callbackReceivedAt := db.payments[n.platformOrderId].callbackReceivedAt)
         == db.payments[n.platformOrderId]
    ensures out.0.SuccessPage? && n.platformOrderId != "" && n.platformOrderId in db.orders
            && db.orders[n.platformOrderId].status == AwaitingPayment ==>
      var o := out.1.orders[n.platformOrderId];
      && o.status == Paid && o.shopierTransactionId == Some(OrEmpty(n.paymentId))
      && o.paidAt == Some(now) && o.updatedAt == Some(now)
      && o.shopierSyncedAt == db.orders[n.platformOrderId].shopierSyncedAt
      && o.shopierOrderData == db.orders[n.platformOrderId].shopierOrderData
    ensures out.0.SuccessPage? && n.platformOrderId in db.orders
            && db.orders[n.platformOrderId].status != AwaitingPayment ==>
      out.1.orders[n.platformOrderId] == db.orders[n.platformOrderId]
  {
    var id := n.platformOrderId;
    if n.signature != "" && secret != "" && !Authentic(n, secret, hmac) then
      (SignatureErrorPage(id), db)
    else if n.status == "success" then
      var after := if id != "" then CallbackWrites(db, n, now) else db;
      (SuccessPage(id, OrEmpty(n.paymentId), OrZero(n.installment)), after)
    else
      (FailPage(id, if n.status == "" then "failed" else n.status), db)
  }

  /** When the browser callback arrives before the webhook, it records the payment id,
      so the webhook that follows with the same id is answered "already processed": the
      order is paid, but the payment document keeps the status it had ("pending"). */
  lemma CallbackFirstLeavesPaymentPending(db: Db, n: Notification, secret: string,
                                          hmac: (string, string) -> string, t1: int, t2: int)
    requires n.status == "success" && n.paymentId.Some? && n.platformOrderId != ""
    requires secret != "" && Authentic(n, secret, hmac)
    requires n.platformOrderId in db.payments && db.payments[n.platformOrderId].status == Pending
    requires n.platformOrderId in db.orders && db.orders[n.platformOrderId].status == AwaitingPayment
    ensures var afterCallback := Callback(db, n, secret, hmac, t1).1;
      && afterCallback.orders[n.platformOrderId].status == Paid
      && Webhook(afterCallback, n, true, secret, hmac, t2) == (AlreadyProcessed, afterCallback)
      && afterCallback.payments[n.platformOrderId].status == Pending
  {
  }

  // ---------------------------------------------------------------- syncOrderStatus

  datatype SyncReply =
    | SyncMethodNotAllowed   // 405
    | NoAccessToken          // 500
    | OrderIdRequired        // 400
    | OrderNotFound          // 404
    | NoShopierData          // 200, nothing written
    | SyncedWith(shopierOrder: Option<ShopierOrder>)   // 200

  /** Whether Shopier's answer reports the order as paid. */
  predicate ReportsPaid(data: seq<ShopierOrder>)
  {
    |data| > 0 && data[0].paymentStatus == "paid"
  }

  /** `syncOrderStatus` over the orders; `fetched` is Shopier's answer (`None` when the
      request failed). */
  function SyncOne(orders: map<string, OrderDoc>, orderId: string, isPost: bool, accessToken: string,
                   fetched: Option<seq<ShopierOrder>>, now: int): (out: (SyncReply, map<string, OrderDoc>))
    ensures out.1.Keys == orders.Keys
    ensures forall id :: id in orders && id != orderId ==> out.1[id] == orders[id]
    ensures forall id :: id in orders ==>
      (out.1[id].status != orders[id].status <==>
         && isPost && accessToken != "" && id == orderId && orderId != "" && fetched.Some? && ReportsPaid(fetched.value)
         && orders[id].status == AwaitingPayment)
    ensures forall id :: id in orders && out.1[id].status != orders[id].status ==> out.1[id].status == Paid
    ensures out.1 != orders ==> out.0.SyncedWith?
  {
    if !isPost then (SyncMethodNotAllowed, orders)
    else if accessToken == "" then (NoAccessToken, orders)
    else if orderId == "" then (OrderIdRequired, orders)
    else if orderId !in orders then (OrderNotFound, orders)
    else if fetched.None? then (NoShopierData, orders)
    else
      var data := fetched.value;
      var o := orders[orderId].(shopierSyncedAt := Some(now), updatedAt := Some(now));
      if data == [] then (SyncedWith(None), orders[orderId := o])
      else
        var first := data[0];
        var paid :=
          if first.paymentStatus == "paid" && orders[orderId].status == AwaitingPayment then
            o.(status := Paid, shopierTransactionId := Some(first.paymentId), paidAt := Some(now))
          else o;
        (SyncedWith(Some(first)), orders[orderId := paid.(shopierOrderData := Some(first))])
  }

  // ---------------------------------------------------------------- syncAllPendingOrders

  /** One entry of the `results` list. */
  datatype SyncResult =
    | Synced(orderId: string)                          // newStatus: 'Ödendi'
    | NotPaid(orderId: string, shopierStatus: string)
    | NotInShopier(orderId: string)

  function ResultFor(orderId: string, data: seq<ShopierOrder>): SyncResult
  {
    if |data| > 0 then
      if data[0].paymentStatus == "paid" then Synced(orderId)
      else NotPaid(orderId, data[0].paymentStatus)
    else NotInShopier(orderId)
  }

  /** An order as the bulk sync marks it paid. */
  function MarkPaid(o: OrderDoc, s: ShopierOrder, now: int): OrderDoc
  {
    o.(status := Paid, shopierTransactionId := Some(s.paymentId), paidAt := Some(now),
       updatedAt := Some(now), shopierSyncedAt := Some(now))
  }

  /** The orders after the bulk sync of `pending`, where `lookup(id)` is Shopier's answer
      for `id` (empty when it knows no such order). */
  function SyncAll(orders: map<string, OrderDoc>, pending: seq<string>,
                   lookup: string -> seq<ShopierOrder>, now: int): map<string, OrderDoc>
  {
    map id | id in orders ::
      if id in pending && ReportsPaid(lookup(id)) then MarkPaid(orders[id], lookup(id)[0], now)
      else orders[id]
  }

  /** The results of the bulk sync: one per pending order, in query order. */
  function SyncAllResults(pending: seq<string>, lookup: string -> seq<ShopierOrder>): (r: seq<SyncResult>)
    ensures |r| == |pending|
    ensures forall i :: 0 <= i < |r| ==> r[i].orderId == pending[i]
    ensures forall i :: 0 <= i < |r| ==> (r[i].Synced? <==> ReportsPaid(lookup(pending[i])))
  {
    seq(|pending|, i requires 0 <= i < |pending| => ResultFor(pending[i], lookup(pending[i])))
  }

  /** Only the pending orders Shopier reports paid change, and they become paid. */
  lemma SyncAllMarksOnlyPaid(orders: map<string, OrderDoc>, pending: seq<string>,
                             lookup: string -> seq<ShopierOrder>, now: int)
    ensures SyncAll(orders, pending, lookup, now).Keys == orders.Keys
    ensures forall id :: id in orders ==>
      (SyncAll(orders, pending, lookup, now)[id] != orders[id] ==> id in pending && ReportsPaid(lookup(id)))
    ensures forall id :: id in orders && id in pending && ReportsPaid(lookup(id)) ==>
      SyncAll(orders, pending, lookup, now)[id].status == Paid
  {
  }

  /** One more pending order processed by the bulk sync. */
  lemma SyncAllStep(orders: map<string, OrderDoc>, pending: seq<string>, i: nat,
                    lookup: string -> seq<ShopierOrder>, now: int)
    requires i < |pending| && pending[i] in orders && pending[i] !in pending[..i]
    ensures var before := SyncAll(orders, pending[..i], lookup, now);
      && pending[i] in before && before[pending[i]] == orders[pending[i]]
      && SyncAll(orders, pending[..i + 1], lookup, now) ==
           if ReportsPaid(lookup(pending[i])) then
             before[pending[i] := MarkPaid(orders[pending[i]], lookup(pending[i])[0], now)]
           else before
    ensures SyncAllResults(pending[..i + 1], lookup) ==
      SyncAllResults(pending[..i], lookup) + [ResultFor(pending[i], lookup(pending[i]))]
  {
    assert pending[..i + 1] == pending[..i] + [pending[i]];
  }

  /** The query for the pending orders: every listed id is a distinct order awaiting
      payment, and every order awaiting payment is listed. */
  predicate IsPendingQuery(orders: map<string, OrderDoc>, pending: seq<string>)
  {
    && (forall i, j :: 0 <= i < j < |pending| ==> pending[i] != pending[j])
    && (forall i :: 0 <= i < |pending| ==> pending[i] in orders && orders[pending[i]].status == AwaitingPayment)
    && (forall id :: id in orders && orders[id].status == AwaitingPayment ==> id in pending)
  }

  // ---------------------------------------------------------------- createShopierPayment

  /** The buyer as the client sends it; missing strings are "" and a missing name `None`. */
  datatype Buyer = Buyer(id: string, name: Option<string>, email: string, phone: string,
                         address: string, city: string)

  datatype PaymentRequest = PaymentRequest(orderId: string, amount: int, buyer: Option<Buyer>,
                                           productName: string)

  datatype CreateReply =
    | CreateMethodNotAllowed   // 405
    | ConfigurationError       // 500
    | MissingRequiredFields    // 400
    | PaymentCreated(orderId: string)   // 200

  /** `buyer.name?.split(' ')[0] || 'Müşteri'`. */
  function FirstName(name: Option<string>): (r: string)
    ensures r != "" && ' ' !in r
  {
    if name.None? then "Müşteri"
    else
      var first := Split(name.value, ' ')[0];
      if first == "" then "Müşteri" else first
  }

  /** `buyer.name?.split(' ').slice(1).join(' ') || ''`. */
  function LastName(name: Option<string>): string
  {
    if name.None? then "" else Join(Split(name.value, ' ')[1..], ' ')
  }

  /** When the name does not start with a space, the first and last names put back
      together with one space give the name again. */
  lemma BuyerNameRoundTrip(name: string)
    requires name != "" && name[0] != ' '
    ensures ' ' in name ==> FirstName(Some(name)) + " " + LastName(Some(name)) == name
    ensures ' ' !in name ==> FirstName(Some(name)) == name && LastName(Some(name)) == ""
  {
    var pieces := Split(name, ' ');
    JoinSplit(name, ' ');
    assert Split(name, ' ')[0] != "" by {
      var rest := Split(name[1..], ' ');
      assert pieces == [[name[0]] + rest[0]] + rest[1..];
    }
    if |pieces| == 1 {
      assert Join(pieces, ' ') == pieces[0];
      assert ' ' !in name;
    } else {
      assert Join(pieces, ' ') == pieces[0] + [' '] + Join(pieces[1..], ' ');
      assert ' ' in name by {
        assert name[|pieces[0]|] == ' ';
      }
    }
  }

  /** `buyerData`. */
  function BuyerDataOf(b: Buyer, orderId: string, productName: string): BuyerData
  {
    BuyerData(
      if b.id != "" then b.id else orderId,
      if productName != "" then productName else "Sipariş #" + orderId,
      FirstName(b.name), LastName(b.name), b.email,
      b.phone, b.address, if b.city != "" then b.city else "İstanbul", "TR")
  }

  /** The request validation: order id, a non-zero amount, a buyer and the buyer's email. */
  predicate HasRequiredFields(req: PaymentRequest)
  {
    req.orderId != "" && req.amount != 0 && req.buyer.Some? && req.buyer.value.email != ""
  }

  /** The payments and orders, updated in place by the handlers. */
  class PaymentStore {
    var payments: map<string, PaymentRecord>
    var orders: map<string, OrderDoc>

    function State(): Db
      reads this
    {
      Db(payments, orders)
    }

    constructor (initial: Db)
      ensures State() == initial
    {
      payments := initial.payments;
      orders := initial.orders;
    }

    /** `createShopierPayment`: after validation, the payment document is (re)written as
        pending; the nonce `randomNr` is an input. */
    method CreateShopierPayment(req: PaymentRequest, isPost: bool, apiKey: string, apiSecret: string,
                                callbackUrl: string, randomNr: string, now: int)
      returns (reply: CreateReply)
      modifies this
      ensures orders == old(orders)
      ensures reply.PaymentCreated? <==>
        isPost && apiKey != "" && apiSecret != "" && callbackUrl != "" && HasRequiredFields(req)
      ensures isPost && apiKey != "" && apiSecret != "" && callbackUrl != "" && !HasRequiredFields(req) ==>
        reply == MissingRequiredFields
      ensures !reply.PaymentCreated? ==> payments == old(payments)
      ensures reply.PaymentCreated? ==>
        && reply.orderId == req.orderId
        && payments == old(payments)[req.orderId := PaymentRecord(
             req.orderId, req.amount, BuyerDataOf(req.buyer.value, req.orderId, req.productName),
             randomNr, Pending, now, None, None, "", None, false, None, None)]
    {
      if !isPost {
        return CreateMethodNotAllowed;
      }
      if apiKey == "" || apiSecret == "" || callbackUrl == "" {
        return ConfigurationError;
      }
      if req.orderId == "" || req.amount == 0 || req.buyer.None? || req.buyer.value.email == "" {
        return MissingRequiredFields;
      }
      var buyerData := BuyerDataOf(req.buyer.value, req.orderId, req.productName);
      payments := payments[req.orderId := PaymentRecord(
        req.orderId, req.amount, buyerData, randomNr, Pending, now, None, None, "", None, false, None, None)];
      reply := PaymentCreated(req.orderId);
    }

    /** `shopierWebhook`. */
    method HandleWebhook(n: Notification, isPost: bool, secret: string,
                         hmac: (string, string) -> string, now: int)
      returns (reply: WebhookReply)
      modifies this
      ensures (reply, State()) == Webhook(old(State()), n, isPost, secret, hmac, now)
    {
      if !isPost {
        return MethodNotAllowed;
      }
      if secret == "" {
        return ConfigError;
      }
      if !Authentic(n, secret, hmac) {
        return InvalidSignature;
      }
      var id := n.platformOrderId;
      if id !in payments {
        return PaymentNotFound;
      }
      var paymentData := payments[id];
      if paymentData.shopierPaymentId == n.paymentId {
        return AlreadyProcessed;
      }
      payments := payments[id := WebhookPayment(paymentData, n, now)];
      if id !in orders {
        return OrderUpdateFailed;
      }
      if n.status == "success" {
        orders := orders[id := orders[id].(status := Paid, shopierTransactionId := n.paymentId,
                                           paidAt := Some(now), updatedAt := Some(now))];
      } else {
        orders := orders[id := orders[id].(status := Cancelled, updatedAt := Some(now))];
      }
      reply := Processed;
    }

    /** `shopierCallback`. */
    method HandleCallback(n: Notification, secret: string, hmac: (string, string) -> string, now: int)
      returns (reply: CallbackReply)
      modifies this
      ensures (reply, State()) == Callback(old(State()), n, secret, hmac, now)
    {
      var id := n.platformOrderId;
      if n.signature != "" && secret != "" {
        if !Authentic(n, secret, hmac) {
          return SignatureErrorPage(id);
        }
      }
      if n.status == "success" {
        if id != "" {
          if id in payments {
            payments := payments[id := payments[id].(
              callbackReceived := true, callbackStatus := Some(n.status),
              shopierPaymentId := Some(OrEmpty(n.paymentId)),
              installment := OrZero(n.installment), callbackReceivedAt := Some(now))];
          }
          if id in orders {
            var orderData := orders[id];
            if orderData.status == AwaitingPayment {
              orders := orders[id := orderData.(
                status := Paid, shopierTransactionId := Some(OrEmpty(n.paymentId)),
                paidAt := Some(now), updatedAt := Some(now))];
            }
          }
        }
        reply := SuccessPage(id, OrEmpty(n.paymentId), OrZero(n.installment));
      } else {
        reply := FailPage(id, if n.status == "" then "failed" else n.status);
      }
    }

    /** `syncOrderStatus`: the update is built field by field, then written once. */
    method SyncOrderStatus(orderId: string, isPost: bool, accessToken: string,
                           fetched: Option<seq<ShopierOrder>>, now: int)
      returns (reply: SyncReply)
      modifies this
      ensures payments == old(payments)
      ensures (reply, orders) == SyncOne(old(orders), orderId, isPost, accessToken, fetched, now)
    {
      if !isPost {
        return SyncMethodNotAllowed;
      }
      if accessToken == "" {
        return NoAccessToken;
      }
      if orderId == "" {
        return OrderIdRequired;
      }
      if orderId !in orders {
        return OrderNotFound;
      }
      if fetched.None? {
        return NoShopierData;
      }
      var orderDoc := orders[orderId];
      var updateData := orderDoc.(shopierSyncedAt := Some(now), updatedAt := Some(now));
      var shopierOrder: Option<ShopierOrder> := None;
      if |fetched.value| > 0 {
        var first := fetched.value[0];
        if first.paymentStatus == "paid" {
          if orderDoc.status == AwaitingPayment {
            updateData := updateData.(status := Paid, shopierTransactionId := Some(first.paymentId),
                                      paidAt := Some(now));
          }
        }
        updateData := updateData.(shopierOrderData := Some(first));
        shopierOrder := Some(first);
      }
      orders := orders[orderId := updateData];
      reply := SyncedWith(shopierOrder);
    }

    /** `syncAllPendingOrders`: one Shopier lookup and one result per pending order, in
        query order. */
    method SyncAllPendingOrders(pending: seq<string>, accessToken: string,
                                lookup: string -> seq<ShopierOrder>, now: int)
      returns (ok: bool, results: seq<SyncResult>)
      requires IsPendingQuery(orders, pending)
      modifies this
      ensures payments == old(payments)
      ensures ok <==> accessToken != ""
      ensures !ok ==> results == [] && orders == old(orders)
      ensures ok ==> results == SyncAllResults(pending, lookup)
      ensures ok ==> orders == SyncAll(old(orders), pending, lookup, now)
    {
      if accessToken == "" {
        return false, [];
      }
      results := [];
      var i := 0;
      while i < |pending|
        invariant 0 <= i <= |pending|
        invariant payments == old(payments)
        invariant orders.Keys == old(orders).Keys
        invariant results == SyncAllResults(pending[..i], lookup)
        invariant orders == SyncAll(old(orders), pending[..i], lookup, now)
      {
        var orderId := pending[i];
        var shopierData := lookup(orderId);
        assert orderId !in pending[..i];
        SyncAllStep(old(orders), pending, i, lookup, now);
        if |shopierData| > 0 {
          var shopierOrder := shopierData[0];
          if shopierOrder.paymentStatus == "paid" {
            orders := orders[orderId := MarkPaid(orders[orderId], shopierOrder, now)];
            results := results + [Synced(orderId)];
          } else {
            results := results + [NotPaid(orderId, shopierOrder.paymentStatus)];
          }
        } else {
          results := results + [NotInShopier(orderId)];
        }
        i := i + 1;
      }
      assert pending[..i] == pending;
      ok := true;
    }
  }
}
