/** The checkout request handler (`POST /api/checkout`): authenticate, resolve
    the product named by the chat, insert a `pending` order and at most one
    order item, build the payment payload for PIX or card, call the payment
    gateway, map its raw status onto the order, send a best-effort e-mail and
    answer.

    The database tables are fields of `CheckoutService`; the auth provider,
    the environment's access token, the outcome of every database write, the
    gateway's answer and the e-mail provider's answer are the inputs of one
    request (`Environment`). Every request sent to a collaborator is appended,
    in order, to the service's `trace`. */
module CheckoutRoute {
  import opened Wrappers
  import opened Text
  import Seqs

  type OrderId = nat

  /** Catalog ids are database-generated uuids and never empty, so a product
      that was found always makes `productId` truthy. */
  type ProductId = s: string | s != "" witness "p"

  /** The authenticated user; `email` is "" when the account has none. */
  datatype User = User(id: string, email: string)

  datatype Product = Product(id: ProductId, name: string)

  datatype OrderStatus = Pending | Confirmed | Cancelled | AwaitingPayment

  datatype Order = Order(
    id: OrderId,
    userId: string,
    totalAmount: int,
    status: OrderStatus,
    paymentMethod: string,
    paymentId: Option<string>,
    paymentStatus: Option<string>,
    preferenceId: Option<string>)

  datatype OrderItem = OrderItem(
    orderId: OrderId,
    productId: ProductId,
    quantity: nat,
    priceAtPurchase: int,
    size: string)

  datatype Identification = Identification(kind: string, number: string)

  /** The request's `payer` object; `email` is "" when it was not sent. */
  datatype Payer = Payer(email: string, firstName: Option<string>, identification: Option<Identification>)

  /** The request body. `productName` is "" when absent; amounts are taken as
      already converted by `Number(...)`. */
  datatype CheckoutRequest = CheckoutRequest(
    paymentMethod: string,
    transactionAmount: int,
    token: Option<string>,
    issuerId: Option<string>,
    installments: int,
    paymentMethodId: Option<string>,
    payer: Option<Payer>,
    productName: string)

  datatype CardFields = CardFields(token: Option<string>, installments: int, issuerId: Option<string>)

  /** The body sent to the gateway's create-payment call; `card` holds the
      fields written only for `credit_card`. */
  datatype PaymentPayload = PaymentPayload(
    transactionAmount: int,
    description: string,
    paymentMethodId: Option<string>,
    payerEmail: string,
    payerFirstName: Option<string>,
    payerIdentification: Option<Identification>,
    externalReference: OrderId,
    card: Option<CardFields>)

  /** What the gateway's create-payment call returned: the payment id, its raw
      status and the PIX material of `point_of_interaction.transaction_data`. */
  datatype GatewayResponse = GatewayResponse(
    id: string,
    status: string,
    qrCode: Option<string>,
    qrCodeBase64: Option<string>,
    ticketUrl: Option<string>)

  datatype GatewayOutcome = Created(response: GatewayResponse) | Threw(message: string)

  /** Everything one request learns from outside: the session's user, the
      `MP_ACCESS_TOKEN` variable ("" when unset), the outcome of each database
      call, the gateway's answer and the e-mail provider's answer. */
  datatype Environment = Environment(
    user: Option<User>,
    accessToken: string,
    productLookupOk: bool,
    orderInsertOk: bool,
    itemInsertOk: bool,
    gateway: GatewayOutcome,
    updateOk: bool,
    emailOk: bool)

  datatype PaymentClient = PaymentClient(accessToken: string)

  datatype OrderUpdate = OrderUpdate(
    paymentId: string,
    paymentStatus: string,
    status: OrderStatus,
    preferenceId: Option<string>)

  /** The notification: recipient, order, subject line, whether the body
      announces a confirmed payment and whether it carries the PIX reminder. */
  datatype Email = Email(to: string, orderId: OrderId, subject: string, announcesConfirmed: bool, pixHint: bool)

  /** One request sent to a collaborator, in the order the handler sends it. */
  datatype Effect =
    | LookupProduct(pattern: string)
    | InsertOrder(userId: string, totalAmount: int, paymentMethod: string)
    | InsertItem(item: OrderItem)
    | CreatePayment(payload: PaymentPayload)
    | UpdateOrder(orderId: OrderId, update: OrderUpdate)
    | SendEmail(email: Email)

  datatype EffectKind = KLookup | KInsertOrder | KInsertItem | KCreatePayment | KUpdateOrder | KSendEmail

  datatype CheckoutResponse =
    | Unauthorized
    | OrderCreateFailed
    | ServerError(message: string)
    | Succeeded(orderId: OrderId, paymentId: string, status: string,
              qrCode: Option<string>, qrCodeBase64: Option<string>, ticketUrl: Option<string>)

  datatype Store = Store(orders: map<OrderId, Order>, items: seq<OrderItem>, nextId: OrderId)

  datatype Outcome = Outcome(store: Store, trace: seq<Effect>, response: CheckoutResponse)

  const DefaultSize: string := "G"
  const MissingTokenMessage: string := "MP_ACCESS_TOKEN missing"
  const FallbackErrorMessage: string := "Payment processing failed"
  /** What the runtime throws when `payer.email` is read and `payer` is undefined. */
  const PayerMissingMessage: string := "Cannot read properties of undefined (reading 'email')"

  function HttpStatus(r: CheckoutResponse): (code: int)
    ensures code == 200 <==> r.Succeeded?
    ensures code == 401 <==> r.Unauthorized?
    ensures code == 200 || code == 401 || code == 500
  {
    match r
    case Unauthorized => 401
    case OrderCreateFailed => 500
    case ServerError(_) => 500
    case Succeeded(_, _, _, _, _, _) => 200
  }

  function KindOf(e: Effect): EffectKind
  {
    match e
    case LookupProduct(_) => KLookup
    case InsertOrder(_, _, _) => KInsertOrder
    case InsertItem(_) => KInsertItem
    case CreatePayment(_) => KCreatePayment
    case UpdateOrder(_, _) => KUpdateOrder
    case SendEmail(_) => KSendEmail
  }

  function Kinds(t: seq<Effect>): (r: seq<EffectKind>)
    ensures |r| == |t| && forall k :: 0 <= k < |t| ==> r[k] == KindOf(t[k])
  {
    seq(|t|, k requires 0 <= k < |t| => KindOf(t[k]))
  }

  /** The order of the handler's steps. */
  const StepOrder: seq<EffectKind> := [KLookup, KInsertOrder, KInsertItem, KCreatePayment, KUpdateOrder, KSendEmail]

  /** Orders are keyed by their own id, below the next id to be handed out;
      every item belongs to an existing order. */
  predicate StoreValid(s: Store) {
    && (forall k :: k in s.orders ==> k < s.nextId && s.orders[k].id == k)
    && (forall i :: 0 <= i < |s.items| ==> s.items[i].orderId in s.orders)
  }

  /** `.ilike('name', '%' + name + '%')`: case-insensitive substring match. */
  predicate Matches(p: Product, name: string) {
    Contains(Lower(p.name), Lower(name))
  }

  /** The product query with `limit(1)`: the id of the FIRST product, in
      catalog order, whose name contains the hint; ambiguity is not rejected. */
  function ResolveProduct(catalog: seq<Product>, name: string): (r: Option<ProductId>)
    ensures r.None? <==> forall i :: 0 <= i < |catalog| ==> !Matches(catalog[i], name)
    ensures r.Some? ==> exists i :: 0 <= i < |catalog| && catalog[i].id == r.value && Matches(catalog[i], name)
                                    && forall j :: 0 <= j < i ==> !Matches(catalog[j], name)
  {
    var k := Seqs.FirstIndex(catalog, p => Matches(p, name));
    if k < |catalog| then Some(catalog[k].id) else None
  }

  /** The gateway's raw status onto the order's internal status. */
  function MapStatus(raw: string): (r: OrderStatus)
    ensures r == Confirmed <==> raw == "approved"
    ensures r == Cancelled <==> raw == "rejected"
    ensures r == AwaitingPayment <==> raw != "approved" && raw != "rejected"
    ensures r != Pending
  {
    if raw == "approved" then Confirmed
    else if raw == "rejected" then Cancelled
    else AwaitingPayment
  }

  /** `getPaymentClient`: fails when the access token is unset or empty. */
  function GetPaymentClient(accessToken: string): (r: Result<PaymentClient, string>)
    ensures r.Failure? <==> accessToken == ""
    ensures r.Failure? ==> r.error == MissingTokenMessage
    ensures r.Success? ==> r.value.accessToken == accessToken
  {
    if accessToken == "" then Failure(MissingTokenMessage)
    else Success(PaymentClient(accessToken))
  }

  /** The message the outer `catch` answers with: the error's own message, or
      the fallback when it has none. */
  function CaughtMessage(message: string): (r: string)
    ensures r != ""
    ensures message != "" ==> r == message
  {
    if message == "" then FallbackErrorMessage else message
  }

  function DigitChar(d: nat): char
    requires d < 10
  {
    ('0' as int + d) as char
  }

  /** The decimal text of an order id. */
  function DecimalText(n: nat): (r: string)
    ensures |r| >= 1 && AllDigits(r)
  {
    if n < 10 then [DigitChar(n)] else DecimalText(n / 10) + [DigitChar(n % 10)]
  }

  /** `order.id.slice(0, 8)`. */
  function ShortId(id: OrderId): (r: string)
    ensures 1 <= |r| <= 8 && r <= DecimalText(id)
  {
    var t := DecimalText(id);
    if |t| <= 8 then t else t[..8]
  }

  function Description(id: OrderId): string
  {
    "GolClub Order #" + ShortId(id)
  }

  /** The payment body: the order's id as external reference, `pix` or the
      card brand as payment method, the payer's e-mail falling back to the
      user's, and the card fields for `credit_card` only. */
  function Payload(req: CheckoutRequest, payer: Payer, user: User, id: OrderId): (p: PaymentPayload)
    ensures p.externalReference == id && p.transactionAmount == req.transactionAmount
    ensures p.paymentMethodId == (if req.paymentMethod == "pix" then Some("pix") else req.paymentMethodId)
    ensures p.payerEmail == (if payer.email != "" then payer.email else user.email)
    ensures p.card.Some? <==> req.paymentMethod == "credit_card"
    ensures p.card.Some? ==> p.card.value == CardFields(req.token, req.installments, req.issuerId)
    ensures p.payerFirstName == payer.firstName && p.payerIdentification == payer.identification
  {
    var base := PaymentPayload(
      req.transactionAmount,
      Description(id),
      if req.paymentMethod == "pix" then Some("pix") else req.paymentMethodId,
      if payer.email != "" then payer.email else user.email,
      payer.firstName,
      payer.identification,
      id,
      None);
    if req.paymentMethod == "credit_card"
    then base.(card := Some(CardFields(req.token, req.installments, req.issuerId)))
    else base
  }

  /** The notification: the subject says "Pagamento Aprovado" only for a
      confirmed order; the PIX reminder goes with a PIX order still awaiting
      payment. */
  function EmailFor(to: string, id: OrderId, status: OrderStatus, paymentMethod: string): (e: Email)
    ensures e.to == to && e.orderId == id
    ensures e.announcesConfirmed <==> status == Confirmed
    ensures e.pixHint <==> status == AwaitingPayment && paymentMethod == "pix"
  {
    var heading := if status == Confirmed then "Pagamento Aprovado" else "Aguardando Pagamento";
    Email(to, id, "Pedido #" + ShortId(id) + " - " + heading,
          status == Confirmed, status == AwaitingPayment && paymentMethod == "pix")
  }

  function NewOrder(id: OrderId, userId: string, amount: int, paymentMethod: string): Order
  {
    Order(id, userId, amount, Pending, paymentMethod, None, None, None)
  }

  function ApplyUpdate(o: Order, u: OrderUpdate): Order
  {
    o.(paymentId := Some(u.paymentId), paymentStatus := Some(u.paymentStatus),
       status := u.status, preferenceId := u.preferenceId)
  }

  /** The product the request's name hint resolves to: none without a hint or
      when the query fails, otherwise the first match. */
  function Resolved(catalog: seq<Product>, req: CheckoutRequest, env: Environment): Option<ProductId>
  {
    if req.productName != "" && env.productLookupOk then ResolveProduct(catalog, req.productName) else None
  }

  /** The requests up to and including the order insert: the product lookup
      when there is a name hint, then the insert. */
  function OpeningTrace(req: CheckoutRequest, user: User): seq<Effect>
  {
    (if req.productName != "" then [LookupProduct(req.productName)] else [])
    + [InsertOrder(user.id, req.transactionAmount, req.paymentMethod)]
  }

  /** The store after the pending order (and possibly its item) was written,
      with the item-insert request when a product was resolved. */
  function Place(s: Store, req: CheckoutRequest, env: Environment, user: User, productId: Option<ProductId>): Outcome
  {
    var id := s.nextId;
    var item := OrderItem(id, productId.GetOr("p"), 1, req.transactionAmount, DefaultSize);
    Outcome(
      Store(s.orders[id := NewOrder(id, user.id, req.transactionAmount, req.paymentMethod)],
            s.items + (if productId.Some? && env.itemInsertOk then [item] else []),
            id + 1),
      if productId.Some? then [InsertItem(item)] else [],
      OrderCreateFailed)
  }

  /** After the gateway answered `mp`: the status write-back (when the update
      succeeds), the e-mail when the user has an address, and the success
      response carrying the gateway's RAW status. */
  function Settle(s: Store, req: CheckoutRequest, env: Environment, user: User, id: OrderId, mp: GatewayResponse): Outcome
  {
    var status := MapStatus(mp.status);
    var update := OrderUpdate(mp.id, mp.status, status, mp.qrCode);
    var order := NewOrder(id, user.id, req.transactionAmount, req.paymentMethod);
    Outcome(
      if env.updateOk then s.(orders := s.orders[id := ApplyUpdate(order, update)]) else s,
      [UpdateOrder(id, update)]
      + (if user.email != "" then [SendEmail(EmailFor(user.email, id, status, req.paymentMethod))] else []),
      Succeeded(id, mp.id, mp.status, mp.qrCode, mp.qrCodeBase64, mp.ticketUrl))
  }

  /** From the payment client on, for the order `id` just placed in `s`:
      the new store, the further requests, and the response. */
  function Charge(s: Store, req: CheckoutRequest, env: Environment, user: User, id: OrderId): Outcome
  {
    match GetPaymentClient(env.accessToken)
    case Failure(message) => Outcome(s, [], ServerError(message))
    case Success(_) =>
      if req.payer.None? then Outcome(s, [], ServerError(PayerMissingMessage))
      else
        var pay := CreatePayment(Payload(req, req.payer.value, user, id));
        match env.gateway
        case Threw(message) => Outcome(s, [pay], ServerError(CaughtMessage(message)))
        case Created(mp) =>
          var settled := Settle(s, req, env, user, id, mp);
          Outcome(settled.store, [pay] + settled.trace, settled.response)
  }

  /** An authenticated request: the opening requests, then nothing more when
      the order insert fails, otherwise the placed order and the charge. */
  function Authorized(catalog: seq<Product>, s: Store, req: CheckoutRequest, env: Environment, user: User): Outcome
  {
    var t0 := OpeningTrace(req, user);
    if !env.orderInsertOk then Outcome(s, t0, OrderCreateFailed)
    else
      var placed := Place(s, req, env, user, Resolved(catalog, req, env));
      var charged := Charge(placed.store, req, env, user, s.nextId);
      Outcome(charged.store, t0 + placed.trace + charged.trace, charged.response)
  }

  /** One checkout request from store `s`: the resulting store, the requests
      sent to collaborators in order, and the response. */
  function Checkout(catalog: seq<Product>, s: Store, req: CheckoutRequest, env: Environment): Outcome
  {
    if env.user.None? then Outcome(s, [], Unauthorized)
    else Authorized(catalog, s, req, env, env.user.value)
  }

  /** The handler with the `orders` and `order_items` tables it writes. */
  class CheckoutService {
    const catalog: seq<Product>
    var orders: map<OrderId, Order>
    var items: seq<OrderItem>
    var nextId: OrderId
    var trace: seq<Effect>

    function State(): Store
      reads this
    {
      Store(orders, items, nextId)
    }

    ghost predicate Valid()
      reads this
    {
      StoreValid(State())
    }

    constructor (products: seq<Product>)
      ensures Valid() && catalog == products
      ensures orders == map[] && items == [] && trace == []
    {
      catalog := products;
      orders := map[];
      items := [];
      nextId := 0;
      trace := [];
    }

    /** `POST`: the steps of one request, in the source's order. */
    method Post(req: CheckoutRequest, env: Environment) returns (resp: CheckoutResponse)
      requires Valid()
      modifies this
      ensures Valid()
      ensures var out := Checkout(catalog, old(State()), req, env);
              State() == out.store && trace == old(trace) + out.trace && resp == out.response
    {
      // 1. Authenticate: without a user nothing is sent anywhere.
      if env.user.None? {
        return Unauthorized;
      }
      resp := PostAuthorized(req, env, env.user.value);
    }

    /** Steps 2 to 8 for an authenticated user. */
    method PostAuthorized(req: CheckoutRequest, env: Environment, user: User) returns (resp: CheckoutResponse)
      requires Valid()
      modifies this
      ensures Valid()
      ensures var out := Authorized(catalog, old(State()), req, env, user);
              State() == out.store && trace == old(trace) + out.trace && resp == out.response
    {
      // 2. Resolve the product before anything is written.
      ghost var s0 := State();
      ghost var trace0 := trace;
      var productId := LookupStep(req, env);

      // 3. Insert the pending order.
      trace := trace + [InsertOrder(user.id, req.transactionAmount, req.paymentMethod)];
      ghost var opening := OpeningTrace(req, user);
      assert trace == trace0 + opening;
      if !env.orderInsertOk {
        return OrderCreateFailed;
      }
      var id := PlaceOrder(req, env, user, productId);
      ghost var placed := Place(s0, req, env, user, productId);
      assert State() == placed.store && trace == trace0 + opening + placed.trace;
      resp := ChargeOrder(req, env, user, id);
      ghost var charged := Charge(placed.store, req, env, user, s0.nextId);
      Seqs.AppendAssoc(trace0, opening, placed.trace, charged.trace);
    }

    /** Step 2: the product query, sent only when the request names a
        product; a failed query leaves `productId` null. */
    method LookupStep(req: CheckoutRequest, env: Environment) returns (productId: Option<ProductId>)
      modifies this`trace
      ensures productId == Resolved(catalog, req, env)
      ensures trace == old(trace) + (if req.productName != "" then [LookupProduct(req.productName)] else [])
    {
      productId := None;
      if req.productName != "" {
        trace := trace + [LookupProduct(req.productName)];
        if env.productLookupOk {
          var found := ResolveProduct(catalog, req.productName);
          if found.Some? {
            productId := found;
          }
        }
      }
    }

    /** Steps 3 and 4: the pending order, then at most one item, whose insert
        error is not looked at. */
    method PlaceOrder(req: CheckoutRequest, env: Environment, user: User, productId: Option<ProductId>) returns (id: OrderId)
      requires Valid()
      modifies this
      ensures Valid() && id == old(nextId) && id in orders
      ensures var placed := Place(old(State()), req, env, user, productId);
              State() == placed.store && trace == old(trace) + placed.trace
    {
      var amount := req.transactionAmount;
      var order := NewOrder(nextId, user.id, amount, req.paymentMethod);
      id := order.id;
      orders := orders[id := order];
      nextId := nextId + 1;
      if productId.Some? {
        var item := OrderItem(id, productId.value, 1, amount, DefaultSize);
        trace := trace + [InsertItem(item)];
        if env.itemInsertOk {
          items := items + [item];
        }
      }
    }

    /** Steps 5 and 6 for the order `id` just placed: payment client, payload
        (mutated for cards) and the gateway call, whose throw goes to the
        outer catch. */
    method ChargeOrder(req: CheckoutRequest, env: Environment, user: User, id: OrderId) returns (resp: CheckoutResponse)
      requires Valid() && id in orders
      modifies this
      ensures Valid()
      ensures var charged := Charge(old(State()), req, env, user, id);
              State() == charged.store && trace == old(trace) + charged.trace && resp == charged.response
    {
      var client := GetPaymentClient(env.accessToken);
      if client.Failure? {
        return ServerError(client.error);
      }
      if req.payer.None? {
        return ServerError(PayerMissingMessage);
      }
      var paymentData := BuildPaymentData(req, req.payer.value, user, id);
      trace := trace + [CreatePayment(paymentData)];
      if env.gateway.Threw? {
        return ServerError(CaughtMessage(env.gateway.message));
      }
      resp := SettleOrder(req, env, user, id, env.gateway.response);
    }

    /** The payment body, written field by field and completed in place with
        the card fields when the method is `credit_card`. */
    method BuildPaymentData(req: CheckoutRequest, payer: Payer, user: User, id: OrderId) returns (paymentData: PaymentPayload)
      ensures paymentData == Payload(req, payer, user, id)
    {
      paymentData := PaymentPayload(
        req.transactionAmount,
        Description(id),
        if req.paymentMethod == "pix" then Some("pix") else req.paymentMethodId,
        if payer.email != "" then payer.email else user.email,
        payer.firstName,
        payer.identification,
        id,
        None);
      if req.paymentMethod == "credit_card" {
        paymentData := paymentData.(card := Some(CardFields(req.token, req.installments, req.issuerId)));
      }
    }

    /** Steps 7 and 8: map the raw status, write it back (the update's error
        is not looked at), send the e-mail (its outcome `env.emailOk` is
        swallowed) and answer with the raw status. */
    method SettleOrder(req: CheckoutRequest, env: Environment, user: User, id: OrderId, mp: GatewayResponse)
      returns (resp: CheckoutResponse)
      requires Valid() && id in orders
      modifies this
      ensures Valid()
      ensures var settled := Settle(old(State()), req, env, user, id, mp);
              State() == settled.store && trace == old(trace) + settled.trace && resp == settled.response
    {
      var dbStatus := AwaitingPayment;
      if mp.status == "approved" {
        dbStatus := Confirmed;
      }
      if mp.status == "rejected" {
        dbStatus := Cancelled;
      }
      assert dbStatus == MapStatus(mp.status);
      var update := OrderUpdate(mp.id, mp.status, dbStatus, mp.qrCode);
      trace := trace + [UpdateOrder(id, update)];
      if env.updateOk {
        orders := orders[id := ApplyUpdate(NewOrder(id, user.id, req.transactionAmount, req.paymentMethod), update)];
      }
      if user.email != "" {
        trace := trace + [SendEmail(EmailFor(user.email, id, dbStatus, req.paymentMethod))];
      }
      resp := Succeeded(id, mp.id, mp.status, mp.qrCode, mp.qrCodeBase64, mp.ticketUrl);
    }
  }
}
