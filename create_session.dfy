/** Starting a checkout (`app/api/payment/create-session/route.js`): the signed-in buyer names a
    template or a bundle; the handler prices it, asks the payment provider for a hosted checkout
    session and records a pending order for that session. The provider's answer is an input. */
module CheckoutSession {
  import opened Common
  import opened Orders
  import opened OrderLedger
  import opened Templates
  import opened Bundles
  import opened CatalogStore
  import opened PaymentWebhook

  /** The fields of the request body the handler reads. */
  datatype CheckoutBody = CheckoutBody(
    templateId: Option<string>,
    bundleId: Option<string>,
    successUrl: Option<string>,
    cancelUrl: Option<string>)

  /** The checkout session the handler asks the provider for: one line item, paid once. */
  datatype CheckoutRequest = CheckoutRequest(
    productName: string,
    description: Option<string>,
    images: seq<string>,
    unitAmount: int,
    currency: string,
    successUrl: string,
    cancelUrl: string,
    metadata: seq<(string, string)>)

  /** What the order for the session will record. */
  datatype Purchase = Purchase(
    templateId: Option<string>,
    bundleId: Option<string>,
    templateIdsPurchased: seq<string>,
    amount: int)

  /** The plan for the checkout, or the reply that refuses it. */
  datatype Plan = Planned(request: CheckoutRequest, purchase: Purchase) | Refused(status: int, error: string)

  /** The provider's answer to the session request. */
  datatype ProviderAnswer = SessionCreated(id: string, url: string) | ProviderFailed(message: Option<string>)

  /** The success body: where to send the buyer, and the session. */
  datatype SessionInfo = SessionInfo(sessionUrl: string, sessionId: string)

  const SessionParam := "session_id={CHECKOUT_SESSION_ID}"
  const DescriptionLimit := 500
  const MissingFields := "Missing required fields: (templateId or bundleId), successUrl, cancelUrl"
  const SessionFailedPrefix := "Failed to create payment session: "

  /** The buyer is signed in: there are verified claims with a non-empty user id. */
  predicate SignedIn(user: Option<Claims>)
  {
    user.Some? && user.value.userId != ""
  }

  /** The body names something to buy and both return addresses. */
  predicate FieldsPresent(body: CheckoutBody)
  {
    (Truthy(body.templateId) || Truthy(body.bundleId)) && Truthy(body.successUrl) && Truthy(body.cancelUrl)
  }

  /** The success address with the session placeholder appended as a query parameter: after the
      existing query when there is one, as the start of the query otherwise. Either way the
      result has exactly one query (at least one `?`, and no new one when there was one). */
  function SuccessUrlWithSession(url: string): (r: string)
    ensures StartsWith(r, url) && EndsWith(r, SessionParam) && |r| == |url| + 1 + |SessionParam|
    ensures CountChar(r, '?') == if '?' in url then CountChar(url, '?') else 1
    ensures r[|url|] == if '?' in url then '&' else '?'
  {
    var sep := if '?' in url then '&' else '?';
    SessionParamHasNoQuery();
    QueryAppend(url, sep, SessionParam);
    CountCharPositive(url, '?');
    url + [sep] + SessionParam
  }

  /** The placeholder parameter holds no `?`. */
  lemma SessionParamHasNoQuery()
    ensures CountChar(SessionParam, '?') == 0
  {
    assert '?' !in SessionParam;
    CountCharPositive(SessionParam, '?');
  }

  /** Appending a separator and a parameter without `?` adds the separator's question marks only. */
  lemma QueryAppend(url: string, sep: char, param: string)
    requires CountChar(param, '?') == 0
    ensures var r := url + [sep] + param;
            && CountChar(r, '?') == CountChar(url, '?') + (if sep == '?' then 1 else 0)
            && StartsWith(r, url) && EndsWith(r, param) && r[|url|] == sep
  {
    var r := url + [sep] + param;
    CountCharAppend(url + [sep], param, '?');
    CountCharAppend(url, [sep], '?');
    assert [sep][1..] == [];
    assert r[..|url|] == url;
    assert r[|r| - |param|..] == param;
  }

  /** `description?.slice(0, 500) || undefined`: at most 500 characters, and absent when empty. */
  function ShortDescription(description: Option<string>): (r: Option<string>)
    ensures r.Some? <==> Truthy(description)
    ensures r.Some? ==> |r.value| <= DescriptionLimit && StartsWith(description.value, r.value)
  {
    if description.Some? && description.value != "" then Some(Prefix(description.value, DescriptionLimit)) else None
  }

  /** The ids of a bundle that resolve to existing templates, in the bundle's order (populating the
      references drops the ones that no longer exist). */
  function Resolved(templates: seq<Template>, ids: seq<string>): (r: seq<string>)
    ensures |r| <= |ids|
  {
    Filter(ids, (id: string) => TemplateById(templates, id).Some?)
  }

  /** An id is recorded as purchased exactly when the bundle lists it and the template exists. */
  lemma ResolvedExactly(templates: seq<Template>, ids: seq<string>, id: string)
    ensures id in Resolved(templates, ids) <==> id in ids && exists t :: t in templates && t.id == id
  {
    FilterMembership(ids, (i: string) => TemplateById(templates, i).Some?, id);
    if id in ids && exists t :: t in templates && t.id == id {
      assert TemplateById(templates, id).Some?;
    }
  }

  /** The plan for a bundle purchase. */
  function PlanBundle(templates: seq<Template>, bundles: seq<Bundle>, userId: string, bundleId: string,
                      successUrl: string, cancelUrl: string): (r: Plan)
    ensures r.Planned? <==>
      BundleById(bundles, bundleId).Some? && BundleById(bundles, bundleId).value.isActive
      && BundleById(bundles, bundleId).value.bundlePrice > 0
    ensures r.Planned? ==>
      var b := BundleById(bundles, bundleId).value;
      && r.purchase == Purchase(None, Some(b.id), Resolved(templates, b.templateIds), b.bundlePrice)
      && r.request.unitAmount == r.purchase.amount > 0
      && r.request.productName == "Bundle: " + b.title
      && r.request.successUrl == SuccessUrlWithSession(successUrl) && r.request.cancelUrl == cancelUrl
  {
    match BundleById(bundles, bundleId)
    case None => Refused(404, "Bundle not found or inactive")
    case Some(b) =>
      if !b.isActive then Refused(404, "Bundle not found or inactive")
      else if b.bundlePrice <= 0 then Refused(400, "Invalid bundle price")
      else
        var purchased := Resolved(templates, b.templateIds);
        Planned(
          CheckoutRequest("Bundle: " + b.title, ShortDescription(b.description), [], b.bundlePrice, "usd",
                          SuccessUrlWithSession(successUrl), cancelUrl,
                          [("bundleId", b.id), ("templateIds", Join(purchased, ",")), ("userId", userId)]),
          Purchase(None, Some(b.id), purchased, b.bundlePrice))
  }

  /** The plan for a single-template purchase. */
  function PlanTemplate(templates: seq<Template>, userId: string, templateId: string,
                        successUrl: string, cancelUrl: string): (r: Plan)
    ensures r.Planned? <==>
      TemplateById(templates, templateId).Some? && TemplateById(templates, templateId).value.isActive
      && TemplateById(templates, templateId).value.price > 0
    ensures r.Planned? ==>
      var t := TemplateById(templates, templateId).value;
      && r.purchase == Purchase(Some(templateId), None, [], t.price)
      && r.request.unitAmount == r.purchase.amount > 0
      && r.request.productName == t.title
      && r.request.successUrl == SuccessUrlWithSession(successUrl) && r.request.cancelUrl == cancelUrl
  {
    match TemplateById(templates, templateId)
    case None => Refused(404, "Template not found or inactive")
    case Some(t) =>
      if !t.isActive then Refused(404, "Template not found or inactive")
      else if t.price <= 0 then Refused(400, "Invalid template price")
      else
        Planned(
          CheckoutRequest(t.title, ShortDescription(Some(t.description)), if t.imageUrl != "" then [t.imageUrl] else [],
                          t.price, "usd", SuccessUrlWithSession(successUrl), cancelUrl,
                          [("templateId", templateId), ("userId", userId)]),
          Purchase(Some(templateId), None, [], t.price))
  }

  /** The plan for a body that names something to buy: a bundle id takes precedence. */
  function PlanCheckout(templates: seq<Template>, bundles: seq<Bundle>, userId: string, body: CheckoutBody): (r: Plan)
    requires FieldsPresent(body)
    ensures r.Planned? ==> r.request.unitAmount == r.purchase.amount > 0
    ensures r.Planned? ==> (r.purchase.bundleId.Some? <==> Truthy(body.bundleId))
    ensures r.Planned? ==> (r.purchase.templateId.Some? <==> !Truthy(body.bundleId))
    ensures r.Refused? ==> r.status in {400, 404}
    ensures Truthy(body.bundleId) ==>
              var b := BundleById(bundles, body.bundleId.value);
              r.Planned? <==> b.Some? && b.value.isActive && b.value.bundlePrice > 0
    ensures !Truthy(body.bundleId) ==>
              var t := TemplateById(templates, body.templateId.value);
              r.Planned? <==> t.Some? && t.value.isActive && t.value.price > 0
  {
    if Truthy(body.bundleId) then
      PlanBundle(templates, bundles, userId, body.bundleId.value, body.successUrl.value, body.cancelUrl.value)
    else
      PlanTemplate(templates, userId, body.templateId.value, body.successUrl.value, body.cancelUrl.value)
  }

  /** The pending order recorded for a created session. */
  function CheckoutOrder(orderId: string, userId: string, p: Purchase, sessionId: string, now: int): (o: Order)
    ensures o.status == Pending && o.paymentStatus == PaymentPending && o.currency == Usd
    ensures o.stripeSessionId == Some(sessionId) && o.stripePaymentIntentId.None?
    ensures o.amount == p.amount && o.userId == userId && o.id == orderId
    ensures o.templateId == p.templateId && o.bundleId == p.bundleId && o.templateIdsPurchased == p.templateIdsPurchased
    ensures o.downloadUrl.None? && o.createdAt == now
    ensures p.amount >= 0 ==> SchemaValid(o)
  {
    NewOrder(orderId, userId, p.templateId, p.bundleId, p.templateIdsPurchased, Some(sessionId), None,
             p.amount, Usd, now)
  }

  /** The error text of a provider failure. */
  function ProviderError(message: Option<string>): string
  {
    "Stripe error: " + if Truthy(message) then message.value else "Unknown"
  }

  /** `POST /api/payment/create-session`. `keyConfigured` says whether the provider's secret key is
      set; `user` is the verified token's claims, if any; `answer` is what the provider returns for
      the session request; `orderId` and `now` are the new order's id and creation time. `sent` is
      the session request made to the provider, if one was made. */
  method Post(store: OrderStore, catalog: Catalog, keyConfigured: bool, user: Option<Claims>, body: CheckoutBody,
              answer: ProviderAnswer, orderId: string, now: int)
    returns (reply: Reply<SessionInfo>, sent: Option<CheckoutRequest>)
    requires store.Valid()
    modifies store
    ensures store.Valid()
    ensures !keyConfigured ==>
              reply == Err(500, "Missing STRIPE_SECRET_KEY in environment") && sent.None? && store.orders == old(store.orders) && store.ids == old(store.ids)
    ensures keyConfigured && !SignedIn(user) ==>
              reply == Err(401, "Unauthorized: please log in to purchase") && sent.None? && store.orders == old(store.orders) && store.ids == old(store.ids)
    ensures keyConfigured && SignedIn(user) && !FieldsPresent(body) ==>
              reply == Err(400, MissingFields) && sent.None? && store.orders == old(store.orders) && store.ids == old(store.ids)
    ensures keyConfigured && SignedIn(user) && FieldsPresent(body) ==>
              var plan := PlanCheckout(catalog.templates, catalog.bundles, user.value.userId, body);
              && (plan.Refused? ==> reply == Err(plan.status, plan.error) && sent.None? && store.orders == old(store.orders) && store.ids == old(store.ids))
              && (plan.Planned? ==> sent == Some(plan.request))
              && (plan.Planned? && answer.ProviderFailed? ==>
                    reply == Err(500, ProviderError(answer.message)) && store.orders == old(store.orders) && store.ids == old(store.ids))
              && (plan.Planned? && answer.SessionCreated? ==>
                    var o := CheckoutOrder(orderId, user.value.userId, plan.purchase, answer.id, now);
                    var stored := orderId !in old(store.orders) && Admissible(old(store.orders), o);
                    && (stored ==> reply == Ok(200, SessionInfo(answer.url, answer.id))
                                   && store.orders == old(store.orders)[orderId := o]
                                   && store.ids == old(store.ids) + [orderId])
                    && (!stored ==> reply == Err(500, SessionFailedPrefix + DuplicateKeyMessage) && store.orders == old(store.orders) && store.ids == old(store.ids)))
  {
    sent := None;
    if !keyConfigured {
      return Err(500, "Missing STRIPE_SECRET_KEY in environment"), None;
    }
    if !SignedIn(user) {
      return Err(401, "Unauthorized: please log in to purchase"), None;
    }
    if !FieldsPresent(body) {
      return Err(400, MissingFields), None;
    }
    var userId := user.value.userId;
    var plan := PlanCheckout(catalog.templates, catalog.bundles, userId, body);
    if plan.Refused? {
      return Err(plan.status, plan.error), None;
    }
    sent := Some(plan.request);
    match answer
    case ProviderFailed(message) =>
      reply := Err(500, ProviderError(message));
    case SessionCreated(sessionId, url) =>
      var order := CheckoutOrder(orderId, userId, plan.purchase, sessionId, now);
      var saved := store.Insert(order);
      if saved == Saved {
        reply := Ok(200, SessionInfo(url, sessionId));
      } else {
        reply := Err(500, SessionFailedPrefix + DuplicateKeyMessage);
      }
  }

  /** A checkout's order, once stored, is the one the provider's completion notification for its
      session marks paid, and no failed-payment event or intent-specific refund reaches it first. */
  lemma CheckoutThenNotificationPays(m: map<string, Order>, ids: seq<string>, o: Order, sessionId: string,
                                     paymentIntentId: string, e: Event)
    requires Consistent(m, ids) && o.id in m && m[o.id] == o
    requires o.stripeSessionId == Some(sessionId) && o.stripePaymentIntentId.None?
    requires Admissible(m, MarkedAsPaid(o, Some(paymentIntentId)))
    requires e.eventType == PaymentIntentFailed || (e.eventType == ChargeRefunded && e.payload.paymentIntent.Some?)
    ensures EventEffect(m, ids, e)[o.id] == o
    ensures EventEffect(m, ids, Event(CheckoutSessionCompleted, EventObject(sessionId, Some(paymentIntentId))))[o.id]
         == MarkedAsPaid(o, Some(paymentIntentId))
  {
    NoIntentNoFailureOrRefund(m, ids, o.id, e);
    FirstMatchIsTheOrder(m, ids, BySession(Some(sessionId)), o.id);
  }
}
