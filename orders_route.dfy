/** The orders endpoint (`app/api/orders/route.js`): listing orders under an access rule, and
    recording a pending order posted by a signed-in user. The verified token is an input. */
module OrdersApi {
  import opened Common
  import opened Orders
  import opened OrderLedger

  const Unauthorized := "Unauthorized"
  const Admin := "admin"

  /** What a listing request reads: every order, or the orders of one purchaser. */
  datatype OrdersQuery = AllOrders | UserOrders(userId: string)

  /** The purchaser whose orders a request names: the `userId` parameter, else the caller. */
  function RequestedUser(user: Claims, param: Option<string>): string
  {
    if Truthy(param) then param.value else user.userId
  }

  /** The access decision as written: the requested user defaults to the caller before the admin
      branch asks whether a user was requested, so the admin's "all orders" branch only runs for a
      caller whose own id is empty. */
  function OrdersQueryAsWritten(user: Option<Claims>, param: Option<string>): (r: Reply<OrdersQuery>)
    ensures r.Err? <==> user.None? || (user.value.role != Admin && RequestedUser(user.value, param) != user.value.userId)
    ensures r.Err? ==> r == Err(401, Unauthorized)
    ensures r.Ok? && user.value.role != Admin ==> r.body == UserOrders(user.value.userId)
    ensures r.Ok? && user.value.role == Admin ==>
              r.body == if RequestedUser(user.value, param) != "" then UserOrders(RequestedUser(user.value, param)) else AllOrders
  {
    if user.None? then Err(401, Unauthorized)
    else
      var userId := RequestedUser(user.value, param);
      if user.value.role != Admin && userId != user.value.userId then Err(401, Unauthorized)
      else if user.value.role == Admin then (if userId != "" then Ok(200, UserOrders(userId)) else Ok(200, AllOrders))
      else Ok(200, UserOrders(userId))
  }

  /** As written, a signed-in admin (every issued token carries a non-empty user id) who names no
      user gets only their own orders, never the whole collection. */
  lemma AdminNeverListsAll(all: seq<Order>, user: Claims, param: Option<string>)
    requires user.role == Admin && user.userId != ""
    ensures OrdersQueryAsWritten(Some(user), param) != Ok(200, AllOrders)
    ensures !Truthy(param) ==> OrdersQueryAsWritten(Some(user), param) == Ok(200, UserOrders(user.userId))
    ensures !Truthy(param) ==> Get(all, Some(user), param) == Ok(200, OrdersOfUser(all, user.userId))
  {
  }

  /** The access decision the comments and the admin dashboard describe: an admin lists every
      order, or one purchaser's when one is named; anyone else lists only their own orders and is
      refused another's. */
  function OrdersQueryFor(user: Option<Claims>, param: Option<string>): (r: Reply<OrdersQuery>)
    ensures r.Err? <==> user.None? || (user.value.role != Admin && RequestedUser(user.value, param) != user.value.userId)
    ensures r.Err? ==> r == Err(401, Unauthorized)
    ensures r.Ok? && user.value.role != Admin ==> r.body == UserOrders(user.value.userId)
    ensures r.Ok? && user.value.role == Admin ==> r.body == if Truthy(param) then UserOrders(param.value) else AllOrders
  {
    if user.None? then Err(401, Unauthorized)
    else
      var userId := RequestedUser(user.value, param);
      if user.value.role != Admin && userId != user.value.userId then Err(401, Unauthorized)
      else if user.value.role == Admin then (if Truthy(param) then Ok(200, UserOrders(param.value)) else Ok(200, AllOrders))
      else Ok(200, UserOrders(userId))
  }

  /** The orders a query returns, newest first. */
  function Run(all: seq<Order>, q: OrdersQuery): (r: seq<Order>)
    ensures q.UserOrders? ==> forall o :: o in r <==> o in all && o.userId == q.userId
    ensures q.UserOrders? ==> r == OrdersOfUser(all, q.userId)
    ensures q.AllOrders? ==> r == Reverse(all)
    ensures q.AllOrders? ==> forall o :: o in r <==> o in all
  {
    match q
    case AllOrders =>
      assert forall o :: o in Reverse(all) <==> o in all by {
        forall o ensures o in Reverse(all) <==> o in all { ReverseMembership(all, o); }
      }
      Reverse(all)
    case UserOrders(u) => OrdersOfUser(all, u)
  }

  /** Over orders stored in creation order, every listing is sorted by creation time, newest
      first. */
  lemma RunNewestFirst(all: seq<Order>, q: OrdersQuery)
    requires Ascending(all, CreatedAt)
    ensures Descending(Run(all, q), CreatedAt)
  {
    match q
    case AllOrders =>
      var r := Reverse(all);
      forall i, j | 0 <= i < j < |r| ensures CreatedAt(r[i]) >= CreatedAt(r[j]) {
        assert r[i] == all[|all| - 1 - i] && r[j] == all[|all| - 1 - j];
      }
    case UserOrders(u) => OrdersOfUserNewestFirst(all, u);
  }

  /** `GET /api/orders` over the stored orders in insertion order, with the access decision as
      written. */
  function Get(all: seq<Order>, user: Option<Claims>, param: Option<string>): (r: Reply<seq<Order>>)
    ensures r.Err? <==> OrdersQueryAsWritten(user, param).Err?
    ensures r.Err? ==> r == Err(401, Unauthorized)
    ensures r.Ok? ==> user.Some?
    ensures r.Ok? && user.value.role != Admin ==> r.body == OrdersOfUser(all, user.value.userId)
    ensures r.Ok? && user.value.role != Admin ==> forall o :: o in r.body <==> o in all && o.userId == user.value.userId
    ensures r.Ok? && user.value.role == Admin ==>
              r.body == if RequestedUser(user.value, param) != "" then OrdersOfUser(all, RequestedUser(user.value, param)) else Reverse(all)
  {
    match OrdersQueryAsWritten(user, param)
    case Err(status, error) => Err(status, error)
    case Ok(_, q) => Ok(200, Run(all, q))
  }

  /** `GET /api/orders` with the access decision the comments describe: the corrected endpoint. */
  function GetAsIntended(all: seq<Order>, user: Option<Claims>, param: Option<string>): (r: Reply<seq<Order>>)
    ensures r.Err? <==> OrdersQueryFor(user, param).Err?
    ensures r.Err? ==> r == Err(401, Unauthorized)
    ensures r.Ok? && user.value.role == Admin && !Truthy(param) ==> r.body == Reverse(all)
    ensures r.Ok? && user.value.role == Admin && Truthy(param) ==> r.body == OrdersOfUser(all, param.value)
  {
    match OrdersQueryFor(user, param)
    case Err(status, error) => Err(status, error)
    case Ok(_, q) => Ok(200, Run(all, q))
  }

  /** A caller who is not an admin either is refused or sees exactly their own orders, whatever
      user they name; for such a caller the written and the corrected endpoints agree. */
  lemma NonAdminSeesOnlyOwn(all: seq<Order>, user: Claims, param: Option<string>)
    requires user.role != Admin
    ensures Get(all, Some(user), param).Ok? <==> RequestedUser(user, param) == user.userId
    ensures Get(all, Some(user), param).Ok? ==> forall o :: o in Get(all, Some(user), param).body ==> o.userId == user.userId
    ensures Get(all, Some(user), param) == GetAsIntended(all, Some(user), param)
  {
  }

  /** With the corrected access decision, an admin who names no user sees every stored order. */
  lemma AdminSeesAll(all: seq<Order>, user: Claims, param: Option<string>)
    requires user.role == Admin && !Truthy(param)
    ensures GetAsIntended(all, Some(user), param).Ok?
    ensures forall o :: o in GetAsIntended(all, Some(user), param).body <==> o in all
  {
    forall o ensures o in GetAsIntended(all, Some(user), param).body <==> o in all {
      ReverseMembership(all, o);
    }
  }

  // ---------------------------------------------------------------------------
  // POST
  // ---------------------------------------------------------------------------

  /** The fields of a posted order the handler reads; the amount in cents. */
  datatype OrderBody = OrderBody(
    templateId: Option<string>,
    amount: Option<int>,
    currency: Option<string>,
    stripeSessionId: Option<string>,
    stripePaymentIntentId: Option<string>)

  /** The body names a template and a non-zero amount. */
  predicate HasRequiredFields(body: OrderBody)
  {
    Truthy(body.templateId) && body.amount.Some? && body.amount.value != 0
  }

  /** The currency name the order is validated with: the body's, or `usd`. */
  function CurrencyOf(body: OrderBody): string
  {
    if Truthy(body.currency) then body.currency.value else "usd"
  }

  /** The order the handler builds, as written: a missing session id or payment-intent id is
      stored as the empty string, which the unique indexes treat as a present value. */
  function PostedOrderAsWritten(id: string, userId: string, body: OrderBody, currency: Currency, now: int): (o: Order)
    requires HasRequiredFields(body)
    ensures o.status == Pending && o.paymentStatus == PaymentPending
    ensures o.userId == userId && o.templateId == body.templateId && o.amount == body.amount.value
    ensures o.currency == currency && o.bundleId.None? && o.templateIdsPurchased == []
    ensures o.stripeSessionId.Some? && o.stripePaymentIntentId.Some?
    ensures Truthy(body.stripeSessionId) ==> o.stripeSessionId == body.stripeSessionId
    ensures !Truthy(body.stripeSessionId) ==> o.stripeSessionId == Some("")
    ensures Truthy(body.stripePaymentIntentId) ==> o.stripePaymentIntentId == body.stripePaymentIntentId
    ensures !Truthy(body.stripePaymentIntentId) ==> o.stripePaymentIntentId == Some("")
  {
    NewOrder(id, userId, body.templateId, None, [],
             Some(if Truthy(body.stripeSessionId) then body.stripeSessionId.value else ""),
             Some(if Truthy(body.stripePaymentIntentId) then body.stripePaymentIntentId.value else ""),
             body.amount.value, currency, now)
  }

  /** As written, once one order posted without a session id is stored, the next one is refused
      as a duplicate key: both carry the session id "". */
  lemma SecondPostWithoutSessionCollides(m: map<string, Order>, first: Order, id: string, userId: string,
                                         body: OrderBody, currency: Currency, now: int)
    requires HasRequiredFields(body) && !Truthy(body.stripeSessionId)
    requires first.id in m && m[first.id] == first && first.stripeSessionId == Some("") && id != first.id
    requires OrderSchemaErrors(body.amount.value, CurrencyName(currency)) == []
    ensures SaveOutcome(m, PostedOrderAsWritten(id, userId, body, currency, now)) == DuplicateKey
  {
    assert Clash(m[first.id], PostedOrderAsWritten(id, userId, body, currency, now));
  }

  /** The order the handler evidently means to build: a pending order for the caller, with the
      session and payment-intent ids only when the body gives them. The endpoint below builds the
      order as written. */
  function PostedOrder(id: string, userId: string, body: OrderBody, currency: Currency, now: int): (o: Order)
    requires HasRequiredFields(body)
    ensures o.status == Pending && o.paymentStatus == PaymentPending
    ensures o.userId == userId && o.templateId == body.templateId && o.amount == body.amount.value
    ensures o.currency == currency && o.bundleId.None? && o.templateIdsPurchased == []
    ensures o.stripeSessionId.Some? <==> Truthy(body.stripeSessionId)
    ensures o.stripePaymentIntentId.Some? <==> Truthy(body.stripePaymentIntentId)
  {
    NewOrder(id, userId, body.templateId, None, [],
             if Truthy(body.stripeSessionId) then body.stripeSessionId else None,
             if Truthy(body.stripePaymentIntentId) then body.stripePaymentIntentId else None,
             body.amount.value, currency, now)
  }

  /** An order posted without provider ids never clashes with a stored order: posting any number
      of them is refused only for a reused document id. */
  lemma PostWithoutIdsAdmissible(m: map<string, Order>, id: string, userId: string, body: OrderBody,
                                 currency: Currency, now: int)
    requires HasRequiredFields(body) && !Truthy(body.stripeSessionId) && !Truthy(body.stripePaymentIntentId)
    ensures Admissible(m, PostedOrder(id, userId, body, currency, now))
  {
  }

  /** `POST /api/orders`. `user` is the verified token's claims, if any; `orderId` and `now` are
      the new document's id and creation time. The reply carries the stored order. A missing
      provider id is stored as "", so a second order posted without one is refused by the unique
      index and answered 500. */
  method Post(store: OrderStore, user: Option<Claims>, body: OrderBody, orderId: string, now: int)
    returns (reply: Reply<Order>)
    requires store.Valid()
    modifies store
    ensures store.Valid()
    ensures user.None? ==> reply == Err(401, Unauthorized) && store.orders == old(store.orders) && store.ids == old(store.ids)
    ensures user.Some? && !HasRequiredFields(body) ==>
              reply == Err(400, "Missing required fields") && store.orders == old(store.orders) && store.ids == old(store.ids)
    ensures user.Some? && HasRequiredFields(body) ==>
              var errs := OrderSchemaErrors(body.amount.value, CurrencyOf(body));
              && (errs != [] ==> reply == Err(400, Join(errs, ", ")) && store.orders == old(store.orders) && store.ids == old(store.ids))
              && (errs == [] ==>
                    var o := PostedOrderAsWritten(orderId, user.value.userId, body, ParseCurrency(CurrencyOf(body)).value, now);
                    var stored := orderId !in old(store.orders) && Admissible(old(store.orders), o);
                    && (stored ==> reply == Ok(201, o) && store.orders == old(store.orders)[orderId := o]
                                   && store.ids == old(store.ids) + [orderId])
                    && (!stored ==> reply == Err(500, "Failed to create order")
                                    && store.orders == old(store.orders) && store.ids == old(store.ids)))
  {
    if user.None? {
      return Err(401, Unauthorized);
    }
    if !HasRequiredFields(body) {
      return Err(400, "Missing required fields");
    }
    var errs := OrderSchemaErrors(body.amount.value, CurrencyOf(body));
    if errs != [] {
      return Err(400, Join(errs, ", "));
    }
    var o := PostedOrderAsWritten(orderId, user.value.userId, body, ParseCurrency(CurrencyOf(body)).value, now);
    var saved := store.Insert(o);
    if saved == Saved {
      reply := Ok(201, o);
    } else {
      reply := Err(500, "Failed to create order");
    }
  }

  /** A rejected posting reports every failing path: a negative amount and an unknown currency
      both appear, in schema order, separated by ", ". */
  lemma BothValidationMessagesReported(amount: int, currency: string)
    requires amount < 0 && ParseCurrency(currency).None?
    ensures Join(OrderSchemaErrors(amount, currency), ", ")
         == AmountNegativeMessage + ", " + EnumMessage(currency, "currency")
  {
  }
}
