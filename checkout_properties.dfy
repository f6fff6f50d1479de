/** What one checkout request does and does not do, stated over the
    specification `Checkout.Checkout` that `CheckoutService.Post` is proved
    to follow. */
module CheckoutProperties {
  import opened Wrappers
  import opened CheckoutRoute

  /** The position of each step in the handler. */
  function Rank(k: EffectKind): nat
  {
    match k
    case KLookup => 0
    case KInsertOrder => 1
    case KInsertItem => 2
    case KCreatePayment => 3
    case KUpdateOrder => 4
    case KSendEmail => 5
  }

  /** Every kind of request occurs at most once, and in the handler's order. */
  predicate InStepOrder(t: seq<Effect>) {
    forall i, j :: 0 <= i < j < |t| ==> Rank(KindOf(t[i])) < Rank(KindOf(t[j]))
  }

  predicate Sends(t: seq<Effect>, k: EffectKind) {
    exists i :: 0 <= i < |t| && KindOf(t[i]) == k
  }

  /** Every request of t is of a step ranked lo..hi. */
  predicate RanksIn(t: seq<Effect>, lo: nat, hi: nat) {
    forall i :: 0 <= i < |t| ==> lo <= Rank(KindOf(t[i])) <= hi
  }

  /** Concatenating an ordered trace of early steps with an ordered trace of
      later steps keeps the order. */
  lemma OrderedAppend(a: seq<Effect>, b: seq<Effect>, lo: nat, mid: nat, hi: nat)
    requires lo <= mid < hi
    requires InStepOrder(a) && InStepOrder(b) && RanksIn(a, lo, mid) && RanksIn(b, mid + 1, hi)
    ensures InStepOrder(a + b) && RanksIn(a + b, lo, hi)
  {
    forall i, j | 0 <= i < j < |a + b|
      ensures Rank(KindOf((a + b)[i])) < Rank(KindOf((a + b)[j]))
    {
      if j < |a| {
        assert (a + b)[i] == a[i] && (a + b)[j] == a[j];
      } else if i < |a| {
        assert (a + b)[i] == a[i] && (a + b)[j] == b[j - |a|];
      } else {
        assert (a + b)[i] == b[i - |a|] && (a + b)[j] == b[j - |a|];
      }
    }
    forall i | 0 <= i < |a + b| ensures lo <= Rank(KindOf((a + b)[i])) <= hi {
      if i < |a| {
        assert (a + b)[i] == a[i];
      } else {
        assert (a + b)[i] == b[i - |a|];
      }
    }
  }

  /** A trace whose steps all lie outside k's rank never sends k. */
  lemma RanksExclude(t: seq<Effect>, lo: nat, hi: nat, k: EffectKind)
    requires RanksIn(t, lo, hi) && !(lo <= Rank(k) <= hi)
    ensures !Sends(t, k)
  {
  }

  /** A step ranked between the ranks of two traces is sent by neither. */
  lemma GapExcludes(a: seq<Effect>, b: seq<Effect>, mid: nat, hi: nat, k: EffectKind)
    requires RanksIn(a, 0, mid) && RanksIn(b, mid + 2, hi) && Rank(k) == mid + 1
    ensures !Sends(a + b, k)
  {
    forall i | 0 <= i < |a + b| ensures KindOf((a + b)[i]) != k {
      if i < |a| {
        assert (a + b)[i] == a[i];
      } else {
        assert (a + b)[i] == b[i - |a|];
      }
    }
  }

  /** After the gateway answered: the update, then possibly the e-mail. */
  lemma SettleShape(s: Store, req: CheckoutRequest, env: Environment, user: User, id: OrderId, mp: GatewayResponse)
    ensures var t := Settle(s, req, env, user, id, mp).trace;
            InStepOrder(t) && RanksIn(t, 4, 5) && |t| >= 1 && t[0].UpdateOrder?
  {
  }

  /** The shape of the part from the payment client on: ordered, made of the
      gateway call, the update and the e-mail only, and empty when the client
      or the payer is missing. */
  lemma {:induction false} ChargeShape(s: Store, req: CheckoutRequest, env: Environment, user: User, id: OrderId)
    ensures var t := Charge(s, req, env, user, id).trace;
            InStepOrder(t) && RanksIn(t, 3, 5)
            && (env.accessToken == "" || req.payer.None? ==> t == [])
            && (env.gateway.Threw? ==> RanksIn(t, 3, 3))
  {
    var t := Charge(s, req, env, user, id).trace;
    if env.accessToken != "" && req.payer.Some? {
      var pay := CreatePayment(Payload(req, req.payer.value, user, id));
      if env.gateway.Created? {
        var rest := Settle(s, req, env, user, id, env.gateway.response).trace;
        SettleShape(s, req, env, user, id, env.gateway.response);
        assert t == [pay] + rest;
        OrderedAppend([pay], rest, 3, 3, 5);
      } else {
        assert t == [pay];
      }
    } else {
      assert t == [];
    }
  }

  /** The opening part: the lookup when a product is named, then the order insert. */
  lemma OpeningShape(req: CheckoutRequest, user: User)
    ensures var t0 := OpeningTrace(req, user);
            InStepOrder(t0) && RanksIn(t0, 0, 1)
            && t0[|t0| - 1] == InsertOrder(user.id, req.transactionAmount, req.paymentMethod)
  {
  }

  /** The item part: at most the one item insert. */
  lemma PlaceShape(s: Store, req: CheckoutRequest, env: Environment, user: User, productId: Option<ProductId>)
    ensures var t := Place(s, req, env, user, productId).trace;
            InStepOrder(t) && RanksIn(t, 2, 2)
  {
  }

  /** An authenticated request whose order insert succeeded: the trace is the
      opening part (lookup, order insert), the item part and the charge
      part, each ordered and in that order. */
  lemma {:induction false} AuthorizedShape(catalog: seq<Product>, s: Store, req: CheckoutRequest, env: Environment, user: User)
    requires env.orderInsertOk
    ensures var t0 := OpeningTrace(req, user);
            var placed := Place(s, req, env, user, Resolved(catalog, req, env));
            var charged := Charge(placed.store, req, env, user, s.nextId);
            var out := Authorized(catalog, s, req, env, user);
            && out.trace == t0 + placed.trace + charged.trace
            && InStepOrder(t0) && RanksIn(t0, 0, 1) && t0[|t0| - 1] == InsertOrder(user.id, req.transactionAmount, req.paymentMethod)
            && InStepOrder(placed.trace) && RanksIn(placed.trace, 2, 2)
            && InStepOrder(t0 + placed.trace) && RanksIn(t0 + placed.trace, 0, 2)
            && InStepOrder(out.trace) && RanksIn(out.trace, 0, 5)
  {
    var t0 := OpeningTrace(req, user);
    var placed := Place(s, req, env, user, Resolved(catalog, req, env));
    var charged := Charge(placed.store, req, env, user, s.nextId);
    OpeningShape(req, user);
    PlaceShape(s, req, env, user, Resolved(catalog, req, env));
    OrderedAppend(t0, placed.trace, 0, 1, 2);
    ChargeShape(placed.store, req, env, user, s.nextId);
    OrderedAppend(t0 + placed.trace, charged.trace, 0, 2, 5);
  }

  /** Without an authenticated user the answer is 401 and nothing is sent or
      written: no lookup, no order, no item, no payment, no e-mail. */
  lemma UnauthorizedHasNoSideEffects(catalog: seq<Product>, s: Store, req: CheckoutRequest, env: Environment)
    requires env.user.None?
    ensures var out := Checkout(catalog, s, req, env);
            out.response == Unauthorized && HttpStatus(out.response) == 401
            && out.trace == [] && out.store == s
  {
  }

  /** Every request follows the step order: lookup, order insert, item
      insert, gateway call, status update, e-mail, each at most once. In
      particular the product is resolved before the order is inserted, and
      the gateway is called only after the order insert. */
  lemma {:induction false} StepsInOrder(catalog: seq<Product>, s: Store, req: CheckoutRequest, env: Environment)
    ensures InStepOrder(Checkout(catalog, s, req, env).trace)
  {
    if env.user.Some? && env.orderInsertOk {
      AuthorizedShape(catalog, s, req, env, env.user.value);
    }
  }

  /** The gateway is called only for an authenticated request whose order
      was inserted. */
  lemma GatewayNeedsInsertedOrder(catalog: seq<Product>, s: Store, req: CheckoutRequest, env: Environment, j: nat)
    requires var t := Checkout(catalog, s, req, env).trace; j < |t| && t[j].CreatePayment?
    ensures env.user.Some? && env.orderInsertOk
  {
    if env.user.Some? && !env.orderInsertOk {
      OpeningShape(req, env.user.value);
    }
  }

  /** The payment refers to the order inserted earlier in the same request,
      with the request's user, amount and method. */
  lemma {:induction false} GatewayPaysInsertedOrder(catalog: seq<Product>, s: Store, req: CheckoutRequest, env: Environment, j: nat)
    requires env.user.Some? && env.orderInsertOk
    requires var t := Checkout(catalog, s, req, env).trace; j < |t| && t[j].CreatePayment?
    ensures var t := Checkout(catalog, s, req, env).trace;
            t[j].payload.externalReference == s.nextId
            && exists i :: 0 <= i < j && t[i] == InsertOrder(env.user.value.id, req.transactionAmount, req.paymentMethod)
  {
    var t := Checkout(catalog, s, req, env).trace;
    var user := env.user.value;
    AuthorizedShape(catalog, s, req, env, user);
    var t0 := OpeningTrace(req, user);
    assert Rank(KindOf(t[j])) == 3;
    assert t[|t0| - 1] == t0[|t0| - 1] && |t0| - 1 < j;
  }

  /** The order written before the gateway call is `pending`, with the
      request's user, amount and method and no payment data yet. */
  lemma PendingOrderPlaced(catalog: seq<Product>, s: Store, req: CheckoutRequest, env: Environment, user: User)
    ensures var placed := Place(s, req, env, user, Resolved(catalog, req, env));
            placed.store.orders[s.nextId] == Order(s.nextId, user.id, req.transactionAmount, Pending,
                                                   req.paymentMethod, None, None, None)
  {
  }

  /** A failed order insert answers "Failed to create order" with 500, writes
      nothing and never reaches the gateway. */
  lemma OrderInsertFailureStopsBeforeGateway(catalog: seq<Product>, s: Store, req: CheckoutRequest, env: Environment)
    requires env.user.Some? && !env.orderInsertOk
    ensures var out := Checkout(catalog, s, req, env);
            out.response == OrderCreateFailed && HttpStatus(out.response) == 500
            && out.store == s && !Sends(out.trace, KCreatePayment) && !Sends(out.trace, KInsertItem)
  {
  }

  /** An item is requested exactly when a product matched; it has quantity 1,
      the request's amount as price, size "G" and the first match as
      product. It is stored unless its insert fails, and either way the
      checkout goes on. */
  lemma {:induction false} ItemIffProductMatched(catalog: seq<Product>, s: Store, req: CheckoutRequest, env: Environment)
    requires env.user.Some? && env.orderInsertOk
    ensures Sends(Checkout(catalog, s, req, env).trace, KInsertItem) <==> Resolved(catalog, req, env).Some?
  {
    var user := env.user.value;
    var out := Checkout(catalog, s, req, env);
    var t0 := OpeningTrace(req, user);
    var placed := Place(s, req, env, user, Resolved(catalog, req, env));
    var charged := Charge(placed.store, req, env, user, s.nextId);
    AuthorizedShape(catalog, s, req, env, user);
    ChargeShape(placed.store, req, env, user, s.nextId);
    if placed.trace == [] {
      assert out.trace == t0 + charged.trace;
      GapExcludes(t0, charged.trace, 1, 5, KInsertItem);
    } else {
      assert KindOf(out.trace[|t0|]) == KInsertItem;
    }
  }

  /** The item requested has quantity 1, the request's amount as price, size
      "G" and the first matching product; it is stored unless its insert
      fails, and either way the checkout goes on. */
  lemma ItemFields(catalog: seq<Product>, s: Store, req: CheckoutRequest, env: Environment, user: User)
    ensures var pid := Resolved(catalog, req, env);
            var placed := Place(s, req, env, user, pid);
            && (pid.Some? ==> placed.trace == [InsertItem(OrderItem(s.nextId, pid.value, 1, req.transactionAmount, "G"))])
            && (pid.Some? ==> env.productLookupOk && pid == ResolveProduct(catalog, req.productName))
            && (pid.None? ==> placed.trace == [])
            && placed.store.items == s.items + (if pid.Some? && env.itemInsertOk then [placed.trace[0].item] else [])
  {
  }

  /** With the gateway's answer `mp` and a successful update, the order holds
      the mapped status, the raw status and the payment id. */
  lemma StatusWrittenBack(catalog: seq<Product>, s: Store, req: CheckoutRequest, env: Environment, mp: GatewayResponse)
    requires env.user.Some? && env.orderInsertOk && env.accessToken != "" && req.payer.Some?
    requires env.gateway == Created(mp) && env.updateOk
    ensures var o := Checkout(catalog, s, req, env).store.orders[s.nextId];
            o.status == MapStatus(mp.status) && o.paymentStatus == Some(mp.status) && o.paymentId == Some(mp.id)
            && o.totalAmount == req.transactionAmount && o.userId == env.user.value.id
  {
  }

  /** A failed status update is not looked at: the order stays `pending`, and
      the answer is still a success carrying the gateway's outcome. */
  lemma UpdateFailureIgnored(catalog: seq<Product>, s: Store, req: CheckoutRequest, env: Environment, mp: GatewayResponse)
    requires env.user.Some? && env.orderInsertOk && env.accessToken != "" && req.payer.Some?
    requires env.gateway == Created(mp) && !env.updateOk
    ensures var out := Checkout(catalog, s, req, env);
            out.store.orders[s.nextId].status == Pending
            && out.response == Succeeded(s.nextId, mp.id, mp.status, mp.qrCode, mp.qrCodeBase64, mp.ticketUrl)
  {
  }

  /** A missing access token, a missing payer or a throwing gateway all end in
      the outer catch with 500; the order stays `pending` and is never
      updated, and no e-mail is sent. */
  lemma GatewayFailureLeavesOrderPending(catalog: seq<Product>, s: Store, req: CheckoutRequest, env: Environment)
    requires env.user.Some? && env.orderInsertOk
    requires env.accessToken == "" || req.payer.None? || env.gateway.Threw?
    ensures var out := Checkout(catalog, s, req, env);
            && out.response.ServerError? && HttpStatus(out.response) == 500
            && out.store.orders[s.nextId].status == Pending
            && !Sends(out.trace, KUpdateOrder) && !Sends(out.trace, KSendEmail)
    ensures env.accessToken == "" ==> Checkout(catalog, s, req, env).response == ServerError("MP_ACCESS_TOKEN missing")
    ensures env.accessToken == "" ==> !Sends(Checkout(catalog, s, req, env).trace, KCreatePayment)
  {
    var user := env.user.value;
    var out := Checkout(catalog, s, req, env);
    var t0 := OpeningTrace(req, user);
    var placed := Place(s, req, env, user, Resolved(catalog, req, env));
    var charged := Charge(placed.store, req, env, user, s.nextId);
    AuthorizedShape(catalog, s, req, env, user);
    ChargeShape(placed.store, req, env, user, s.nextId);
    if env.accessToken == "" || req.payer.None? {
      assert out.trace == t0 + placed.trace;
      RanksExclude(out.trace, 0, 2, KCreatePayment);
    } else {
      assert RanksIn(charged.trace, 3, 3);
      OrderedAppend(t0 + placed.trace, charged.trace, 0, 2, 3);
    }
    RanksExclude(out.trace, 0, 3, KUpdateOrder);
    RanksExclude(out.trace, 0, 3, KSendEmail);
  }

  /** A successful answer is 200 with `success`, the new order's id, the
      gateway's payment id, the gateway's RAW status (not the mapped one) and
      the PIX fields exactly as the gateway returned them. */
  lemma SuccessCarriesRawStatus(catalog: seq<Product>, s: Store, req: CheckoutRequest, env: Environment)
    requires Checkout(catalog, s, req, env).response.Succeeded?
    ensures env.gateway.Created?
    ensures var r := Checkout(catalog, s, req, env).response;
            var mp := env.gateway.response;
            HttpStatus(r) == 200 && r.orderId == s.nextId && r.paymentId == mp.id && r.status == mp.status
            && r.qrCode == mp.qrCode && r.qrCodeBase64 == mp.qrCodeBase64 && r.ticketUrl == mp.ticketUrl
  {
  }

  /** The e-mail provider's answer changes nothing: not the response, not the
      store, not the requests. */
  lemma EmailOutcomeIsSwallowed(catalog: seq<Product>, s: Store, req: CheckoutRequest, env: Environment)
    ensures Checkout(catalog, s, req, env.(emailOk := true)) == Checkout(catalog, s, req, env.(emailOk := false))
  {
  }

  /** The e-mail goes to the user's address, after the update, exactly when
      the gateway answered and the user has an address. */
  lemma EmailSentIffUserHasAddress(catalog: seq<Product>, s: Store, req: CheckoutRequest, env: Environment)
    requires env.user.Some? && env.orderInsertOk && env.accessToken != "" && req.payer.Some? && env.gateway.Created?
    ensures var out := Checkout(catalog, s, req, env);
            var user := env.user.value;
            var status := MapStatus(env.gateway.response.status);
            out.trace[|out.trace| - 1] == (if user.email != ""
              then SendEmail(EmailFor(user.email, s.nextId, status, req.paymentMethod))
              else UpdateOrder(s.nextId, OrderUpdate(env.gateway.response.id, env.gateway.response.status, status,
                                                     env.gateway.response.qrCode)))
  {
  }

  /** Exactly one new order per request that got past the insert, under the
      next id; every order that existed before is left as it was. */
  lemma OneNewOrderPerRequest(catalog: seq<Product>, s: Store, req: CheckoutRequest, env: Environment)
    requires StoreValid(s)
    ensures var out := Checkout(catalog, s, req, env);
            var inserted := env.user.Some? && env.orderInsertOk;
            && out.store.orders.Keys == s.orders.Keys + (if inserted then {s.nextId} else {})
            && out.store.nextId == s.nextId + (if inserted then 1 else 0)
            && (forall k :: k in s.orders ==> out.store.orders[k] == s.orders[k])
  {
  }

  /** The store invariant is kept by every request. */
  lemma CheckoutKeepsStoreValid(catalog: seq<Product>, s: Store, req: CheckoutRequest, env: Environment)
    requires StoreValid(s)
    ensures StoreValid(Checkout(catalog, s, req, env).store)
  {
  }

  /** No idempotency: the same request sent twice creates two orders with
      two distinct ids. */
  lemma RetryCreatesSecondOrder(catalog: seq<Product>, s: Store, req: CheckoutRequest, env: Environment)
    requires StoreValid(s) && env.user.Some? && env.orderInsertOk
    ensures var first := Checkout(catalog, s, req, env);
            var second := Checkout(catalog, first.store, req, env);
            second.store.nextId == s.nextId + 2
            && s.nextId in second.store.orders && s.nextId + 1 in second.store.orders
            && |second.store.orders.Keys| == |s.orders.Keys| + 2
  {
    var first := Checkout(catalog, s, req, env);
    OneNewOrderPerRequest(catalog, s, req, env);
    CheckoutKeepsStoreValid(catalog, s, req, env);
    OneNewOrderPerRequest(catalog, first.store, req, env);
    assert s.nextId !in s.orders;
    assert s.nextId + 1 !in first.store.orders;
  }

  /** An ambiguous name is not rejected: the first matching product wins. */
  lemma AmbiguousNameResolvesToFirst(catalog: seq<Product>, name: string, i: nat, j: nat)
    requires i < j < |catalog| && Matches(catalog[i], name) && Matches(catalog[j], name)
    requires forall k :: 0 <= k < i ==> !Matches(catalog[k], name)
    ensures ResolveProduct(catalog, name) == Some(catalog[i].id)
  {
  }
}
