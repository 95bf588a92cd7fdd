/** The order record of the storefront: its enumerations, its schema rules, its in-place
    transitions and the queries over the order collection (`app/models/Order.js`). */
module Orders {
  import opened Common

  // ---------------------------------------------------------------------------
  // Enumerations and their stored names
  // ---------------------------------------------------------------------------

  datatype Status = Pending | Processing | Completed | Cancelled | Failed
  datatype PaymentStatus = PaymentPending | Paid | PaymentFailed | Refunded
  datatype Currency = Usd | Eur | Gbp | Cad

  function StatusName(s: Status): string
  {
    match s
    case Pending => "pending"
    case Processing => "processing"
    case Completed => "completed"
    case Cancelled => "cancelled"
    case Failed => "failed"
  }

  /** The status a stored name denotes; a name outside the enumeration is refused. */
  function ParseStatus(name: string): (r: Option<Status>)
    ensures r.Some? ==> StatusName(r.value) == name
    ensures r.None? ==> forall s: Status :: StatusName(s) != name
  {
    match name
    case "pending" => Some(Pending)
    case "processing" => Some(Processing)
    case "completed" => Some(Completed)
    case "cancelled" => Some(Cancelled)
    case "failed" => Some(Failed)
    case _ => None
  }

  function PaymentStatusName(s: PaymentStatus): string
  {
    match s
    case PaymentPending => "pending"
    case Paid => "paid"
    case PaymentFailed => "failed"
    case Refunded => "refunded"
  }

  /** The payment status a stored name denotes; a name outside the enumeration is refused. */
  function ParsePaymentStatus(name: string): (r: Option<PaymentStatus>)
    ensures r.Some? ==> PaymentStatusName(r.value) == name
    ensures r.None? ==> forall s: PaymentStatus :: PaymentStatusName(s) != name
  {
    match name
    case "pending" => Some(PaymentPending)
    case "paid" => Some(Paid)
    case "failed" => Some(PaymentFailed)
    case "refunded" => Some(Refunded)
    case _ => None
  }

  function CurrencyName(c: Currency): string
  {
    match c
    case Usd => "usd"
    case Eur => "eur"
    case Gbp => "gbp"
    case Cad => "cad"
  }

  /** The currency a stored name denotes; a name outside the enumeration is refused. */
  function ParseCurrency(name: string): (r: Option<Currency>)
    ensures r.Some? ==> CurrencyName(r.value) == name
    ensures r.None? ==> forall c: Currency :: CurrencyName(c) != name
  {
    match name
    case "usd" => Some(Usd)
    case "eur" => Some(Eur)
    case "gbp" => Some(Gbp)
    case "cad" => Some(Cad)
    case _ => None
  }

  /** Every stored name reads back as the value it was written from. */
  lemma NamesRoundTrip(s: Status, p: PaymentStatus, c: Currency)
    ensures ParseStatus(StatusName(s)) == Some(s)
    ensures ParsePaymentStatus(PaymentStatusName(p)) == Some(p)
    ensures ParseCurrency(CurrencyName(c)) == Some(c)
  {
  }

  // ---------------------------------------------------------------------------
  // The record
  // ---------------------------------------------------------------------------

  /** One order document. Amounts are integer cents; times are milliseconds since the epoch.
      An absent optional field is `None`. */
  datatype Order = Order(
    id: string,
    userId: string,
    templateId: Option<string>,
    bundleId: Option<string>,
    templateIdsPurchased: seq<string>,
    stripeSessionId: Option<string>,
    stripePaymentIntentId: Option<string>,
    amount: int,
    currency: Currency,
    status: Status,
    paymentStatus: PaymentStatus,
    downloadUrl: Option<string>,
    downloadExpiresAt: Option<int>,
    createdAt: int)

  /** The currency a new order takes when none is given. */
  const DefaultCurrency: Currency := Usd

  const AmountNegativeMessage := "Amount cannot be negative"

  /** The messages schema validation reports for an order with this amount and currency name,
      in the order of the schema's paths; empty exactly when the order may be saved. */
  function OrderSchemaErrors(amount: int, currency: string): (errs: seq<string>)
    ensures errs == [] <==> amount >= 0 && ParseCurrency(currency).Some?
    ensures amount < 0 ==> errs[0] == AmountNegativeMessage
    ensures ParseCurrency(currency).None? ==> errs[|errs| - 1] == EnumMessage(currency, "currency")
    ensures |errs| <= 2
  {
    (if amount < 0 then [AmountNegativeMessage] else [])
    + (if ParseCurrency(currency).None? then [EnumMessage(currency, "currency")] else [])
  }

  /** The schema's constraints on a stored order (the enumerations hold by typing). */
  predicate SchemaValid(o: Order)
  {
    OrderSchemaErrors(o.amount, CurrencyName(o.currency)) == []
  }

  /** A freshly constructed order: status and payment status take their defaults, `pending`. */
  function NewOrder(id: string, userId: string, templateId: Option<string>, bundleId: Option<string>,
                    templateIdsPurchased: seq<string>, stripeSessionId: Option<string>,
                    stripePaymentIntentId: Option<string>, amount: int, currency: Currency, createdAt: int): (o: Order)
    ensures o.status == Pending && o.paymentStatus == PaymentPending
    ensures o.downloadUrl.None? && o.downloadExpiresAt.None?
    ensures o.id == id && o.userId == userId && o.amount == amount && o.currency == currency
    ensures o.templateId == templateId && o.bundleId == bundleId && o.templateIdsPurchased == templateIdsPurchased
    ensures o.stripeSessionId == stripeSessionId && o.stripePaymentIntentId == stripePaymentIntentId
    ensures o.createdAt == createdAt
  {
    Order(id, userId, templateId, bundleId, templateIdsPurchased, stripeSessionId, stripePaymentIntentId,
          amount, currency, Pending, PaymentPending, None, None, createdAt)
  }

  /** The amount an order reports as its total (the `total` virtual). */
  function Total(o: Order): (t: int)
    ensures SchemaValid(o) ==> t >= 0
  {
    o.amount
  }

  // ---------------------------------------------------------------------------
  // Transitions
  // ---------------------------------------------------------------------------

  /** `b` agrees with `a` on every field except status, payment status and payment intent:
      the purchase itself (purchaser, target, session, amount, currency, creation time) is untouched. */
  predicate SamePurchase(a: Order, b: Order)
  {
    a.(status := b.status, paymentStatus := b.paymentStatus, stripePaymentIntentId := b.stripePaymentIntentId) == b
  }

  /** The order after `markAsPaid(paymentIntentId)`; the webhook and the confirmation handler
      assign the same three fields. */
  function MarkedAsPaid(o: Order, paymentIntentId: Option<string>): (r: Order)
    ensures r.status == Completed && r.paymentStatus == Paid && r.stripePaymentIntentId == paymentIntentId
    ensures SamePurchase(o, r)
  {
    o.(status := Completed, paymentStatus := Paid, stripePaymentIntentId := paymentIntentId)
  }

  /** The order after `markAsFailed()`. */
  function MarkedAsFailed(o: Order): (r: Order)
    ensures r.status == Failed && r.paymentStatus == PaymentFailed
    ensures r.stripePaymentIntentId == o.stripePaymentIntentId && SamePurchase(o, r)
  {
    o.(status := Failed, paymentStatus := PaymentFailed)
  }

  /** The order after a refund notification: only the payment status moves. */
  function MarkedAsRefunded(o: Order): (r: Order)
    ensures r.paymentStatus == Refunded
    ensures r == o.(paymentStatus := Refunded)
  {
    o.(paymentStatus := Refunded)
  }

  /** Marking paid twice with the same intent gives the order marking it once gives. */
  lemma MarkAsPaidIdempotent(o: Order, paymentIntentId: Option<string>)
    ensures MarkedAsPaid(MarkedAsPaid(o, paymentIntentId), paymentIntentId) == MarkedAsPaid(o, paymentIntentId)
  {
  }

  /** Marking paid after any earlier transition erases it: the last writer wins. */
  lemma MarkAsPaidOverwrites(o: Order, p1: Option<string>, p2: Option<string>)
    ensures MarkedAsPaid(MarkedAsPaid(o, p1), p2) == MarkedAsPaid(o, p2)
    ensures MarkedAsPaid(MarkedAsFailed(o), p2) == MarkedAsPaid(o, p2)
    ensures MarkedAsPaid(MarkedAsRefunded(o), p2) == MarkedAsPaid(o, p2)
  {
  }

  /** Marking failed is not gated on the prior state: a completed, paid order becomes failed. */
  lemma FailureDowngradesPaidOrder(o: Order, paymentIntentId: Option<string>)
    ensures MarkedAsFailed(MarkedAsPaid(o, paymentIntentId)).status == Failed
    ensures MarkedAsFailed(MarkedAsPaid(o, paymentIntentId)).paymentStatus == PaymentFailed
    ensures MarkedAsFailed(MarkedAsPaid(o, paymentIntentId)).stripePaymentIntentId == paymentIntentId
  {
  }

  /** No transition changes what was bought, by whom, or for how much. */
  lemma TransitionsKeepPurchase(o: Order, paymentIntentId: Option<string>)
    ensures SamePurchase(o, MarkedAsPaid(o, paymentIntentId))
    ensures SamePurchase(o, MarkedAsFailed(o))
    ensures SamePurchase(o, MarkedAsRefunded(o))
    ensures SchemaValid(o) ==> SchemaValid(MarkedAsPaid(o, paymentIntentId)) && SchemaValid(MarkedAsFailed(o))
                               && SchemaValid(MarkedAsRefunded(o))
  {
  }

  // ---------------------------------------------------------------------------
  // Download link
  // ---------------------------------------------------------------------------

  const DownloadPrefix := "/api/downloads/"

  /** How long a generated download link stays valid: 24 hours, in milliseconds. */
  const DownloadLifetimeMs := 24 * 60 * 60 * 1000

  /** The download path of the order with this id. */
  function DownloadPath(id: string): (p: string)
    ensures StartsWith(p, DownloadPrefix) && |p| == |DownloadPrefix| + |id|
  {
    DownloadPrefix + id
  }

  /** The order id a download path names, if it is one. */
  function DownloadPathOrder(path: string): (r: Option<string>)
    ensures r.Some? ==> DownloadPath(r.value) == path
    ensures r.None? ==> !StartsWith(path, DownloadPrefix)
  {
    if StartsWith(path, DownloadPrefix) then Some(path[|DownloadPrefix|..]) else None
  }

  /** A download path always reads back as the order it was made for. */
  lemma DownloadPathRoundTrip(id: string)
    ensures DownloadPathOrder(DownloadPath(id)) == Some(id)
  {
    assert DownloadPath(id)[|DownloadPrefix|..] == id;
  }

  /** The order after `generateDownloadUrl()` at time `now`. */
  function WithDownloadUrl(o: Order, now: int): (r: Order)
    ensures r.downloadUrl.Some? && DownloadPathOrder(r.downloadUrl.value) == Some(o.id)
    ensures r.downloadExpiresAt == Some(now + DownloadLifetimeMs)
    ensures r.(downloadUrl := o.downloadUrl, downloadExpiresAt := o.downloadExpiresAt) == o
  {
    DownloadPathRoundTrip(o.id);
    o.(downloadUrl := Some(DownloadPath(o.id)), downloadExpiresAt := Some(now + DownloadLifetimeMs))
  }

  // ---------------------------------------------------------------------------
  // Unique keys
  // ---------------------------------------------------------------------------

  /** Two orders that may not both be stored: they share a present session id or a present
      payment-intent id (the two unique, sparse indexes). */
  predicate Clash(a: Order, b: Order)
  {
    (a.stripeSessionId.Some? && a.stripeSessionId == b.stripeSessionId)
    || (a.stripePaymentIntentId.Some? && a.stripePaymentIntentId == b.stripePaymentIntentId)
  }

  /** No two documents of the collection share a present session id or payment-intent id. */
  predicate UniqueKeys(m: map<string, Order>)
  {
    forall i, j :: i in m && j in m && i != j ==> !Clash(m[i], m[j])
  }

  /** Storing `o` under its id would not break a unique index. */
  predicate Admissible(m: map<string, Order>, o: Order)
  {
    forall k :: k in m && k != o.id ==> !Clash(m[k], o)
  }

  /** An admissible save keeps the indexes unique. */
  lemma AdmissiblePreservesUnique(m: map<string, Order>, o: Order)
    requires UniqueKeys(m) && Admissible(m, o)
    ensures UniqueKeys(m[o.id := o])
  {
  }

  /** An update that keeps the session id and payment-intent id of a stored order is always admissible. */
  lemma SameKeysAdmissible(m: map<string, Order>, o: Order)
    requires UniqueKeys(m) && o.id in m
    requires o.stripeSessionId == m[o.id].stripeSessionId && o.stripePaymentIntentId == m[o.id].stripePaymentIntentId
    ensures Admissible(m, o)
  {
    forall k | k in m && k != o.id
      ensures !Clash(m[k], o)
    {
      assert !Clash(m[k], m[o.id]);
    }
  }

  /** With unique indexes, a present session id identifies at most one order
      (so `findByStripeSessionId` has at most one answer). */
  lemma SessionIdentifiesOrder(m: map<string, Order>, i: string, j: string, sessionId: string)
    requires UniqueKeys(m) && i in m && j in m
    requires m[i].stripeSessionId == Some(sessionId) && m[j].stripeSessionId == Some(sessionId)
    ensures i == j
  {
    if i != j {
      assert Clash(m[i], m[j]);
    }
  }

  /** With unique indexes, a present payment-intent id identifies at most one order. */
  lemma PaymentIntentIdentifiesOrder(m: map<string, Order>, i: string, j: string, paymentIntentId: string)
    requires UniqueKeys(m) && i in m && j in m
    requires m[i].stripePaymentIntentId == Some(paymentIntentId) && m[j].stripePaymentIntentId == Some(paymentIntentId)
    ensures i == j
  {
    if i != j {
      assert Clash(m[i], m[j]);
    }
  }

  // ---------------------------------------------------------------------------
  // Queries (over the collection in insertion order)
  // ---------------------------------------------------------------------------

  /** A query filter on one field. A `None` value matches documents where the field is absent,
      as a database query for `null` does. */
  datatype Key = BySession(sessionId: Option<string>) | ByPaymentIntent(paymentIntentId: Option<string>)

  predicate Matches(o: Order, key: Key)
  {
    match key
    case BySession(s) => o.stripeSessionId == s
    case ByPaymentIntent(p) => o.stripePaymentIntentId == p
  }

  /** The orders of one purchaser, newest first (`findByUserId`). */
  function OrdersOfUser(all: seq<Order>, userId: string): (r: seq<Order>)
    ensures r == Reverse(Filter(all, (o: Order) => o.userId == userId))
    ensures forall o :: o in r <==> o in all && o.userId == userId
  {
    NewestFirst(all, (o: Order) => o.userId == userId)
  }

  /** The creation time of an order, the key the listings sort on. */
  function CreatedAt(o: Order): int
  {
    o.createdAt
  }

  /** Over orders stored in creation order, a purchaser's listing is sorted by creation time,
      newest first, as `sort({ createdAt: -1 })` asks. */
  lemma OrdersOfUserNewestFirst(all: seq<Order>, userId: string)
    requires Ascending(all, CreatedAt)
    ensures Descending(OrdersOfUser(all, userId), CreatedAt)
  {
    NewestFirstDescending(all, (o: Order) => o.userId == userId, CreatedAt);
  }

  /** An order counts toward revenue: completed and paid, and, when both bounds are given,
      created within them (inclusive). */
  predicate CountsAsRevenue(o: Order, startDate: Option<int>, endDate: Option<int>)
  {
    && o.status == Completed
    && o.paymentStatus == Paid
    && (startDate.Some? && endDate.Some? ==> startDate.value <= o.createdAt <= endDate.value)
  }

  function SumAmounts(os: seq<Order>): int
  {
    if os == [] then 0 else os[0].amount + SumAmounts(os[1..])
  }

  lemma {:induction false} SumAmountsAppend(a: seq<Order>, b: seq<Order>)
    ensures SumAmounts(a + b) == SumAmounts(a) + SumAmounts(b)
  {
    if a == [] {
      assert a + b == b;
    } else {
      SumAmountsAppend(a[1..], b);
      assert (a + b)[1..] == a[1..] + b;
    }
  }

  lemma {:induction false} SumAmountsNonNegative(os: seq<Order>)
    requires forall i :: 0 <= i < |os| ==> SchemaValid(os[i])
    ensures SumAmounts(os) >= 0
  {
    if os != [] {
      SumAmountsNonNegative(os[1..]);
    }
  }

  /** The revenue summary (`getRevenueStats`): total amount and number of counted orders.
      The average is not modelled. */
  datatype RevenueStats = RevenueStats(totalRevenue: int, totalOrders: nat)

  /** The orders that `getRevenueStats` aggregates. */
  function RevenueOrders(all: seq<Order>, startDate: Option<int>, endDate: Option<int>): seq<Order>
  {
    Filter(all, (o: Order) => CountsAsRevenue(o, startDate, endDate))
  }

  /** An order is aggregated exactly when it is in the collection and counts as revenue. */
  lemma RevenueOrdersExactly(all: seq<Order>, startDate: Option<int>, endDate: Option<int>, o: Order)
    ensures o in RevenueOrders(all, startDate, endDate) <==> o in all && CountsAsRevenue(o, startDate, endDate)
  {
    FilterMembership(all, (o: Order) => CountsAsRevenue(o, startDate, endDate), o);
  }

  /** The aggregate: none when no order matches (the grouping stage then yields no document). */
  function GetRevenueStats(all: seq<Order>, startDate: Option<int>, endDate: Option<int>): (r: Option<RevenueStats>)
    ensures r.None? <==> forall o :: o in all ==> !CountsAsRevenue(o, startDate, endDate)
    ensures r.Some? ==> r.value.totalOrders <= |all|
    ensures r.Some? ==> r.value == RevenueStats(SumAmounts(RevenueOrders(all, startDate, endDate)),
                                                |RevenueOrders(all, startDate, endDate)|)
  {
    var counted := RevenueOrders(all, startDate, endDate);
    forall o | o in all ensures o in counted <==> CountsAsRevenue(o, startDate, endDate) {
      RevenueOrdersExactly(all, startDate, endDate, o);
    }
    if counted == [] then None
    else
      assert counted[0] in counted;
      RevenueOrdersExactly(all, startDate, endDate, counted[0]);
      Some(RevenueStats(SumAmounts(counted), |counted|))
  }

  /** Adding one order to the collection adds its amount to the revenue exactly when it counts. */
  lemma RevenueOfAppend(all: seq<Order>, o: Order, startDate: Option<int>, endDate: Option<int>)
    ensures SumAmounts(RevenueOrders(all + [o], startDate, endDate))
         == SumAmounts(RevenueOrders(all, startDate, endDate)) + (if CountsAsRevenue(o, startDate, endDate) then o.amount else 0)
  {
    var p := (x: Order) => CountsAsRevenue(x, startDate, endDate);
    FilterAppend(all, [o], p);
    SumAmountsAppend(Filter(all, p), Filter([o], p));
    assert [o][1..] == [];
  }

  /** Revenue is never negative over a valid collection. */
  lemma RevenueNonNegative(all: seq<Order>, startDate: Option<int>, endDate: Option<int>)
    requires forall i :: 0 <= i < |all| ==> SchemaValid(all[i])
    ensures SumAmounts(RevenueOrders(all, startDate, endDate)) >= 0
  {
    var counted := RevenueOrders(all, startDate, endDate);
    forall i | 0 <= i < |counted| ensures SchemaValid(counted[i]) {
      assert counted[i] in counted;
      RevenueOrdersExactly(all, startDate, endDate, counted[i]);
    }
    SumAmountsNonNegative(counted);
  }
}
