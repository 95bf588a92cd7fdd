/** The pull confirmation after checkout (`app/api/payment/confirm/route.js`): the buyer's
    browser returns with the session id; the handler asks the provider for the session and, when
    it is paid, applies the same "mark paid" transition as the notification endpoint and answers
    with the template's download link. The provider's answer is an input. */
module PaymentConfirm {
  import opened Common
  import opened Orders
  import opened OrderLedger
  import opened Templates
  import opened CatalogStore
  import opened PaymentWebhook

  /** A checkout session as the provider returns it. */
  datatype Session = Session(paymentStatus: string, paymentIntent: Option<string>)

  /** The outcome of retrieving a session: the call throws, returns nothing, or returns a session. */
  datatype Retrieved = RetrieveFailed | NoSession | Found(session: Session)

  /** The success body: where to download and what was bought. */
  datatype Download = Download(downloadUrl: string, templateTitle: string)

  const ConfirmFailed := "Failed to confirm payment"

  /** The answer for a confirmed order: the download link of its template, or 404 when the order
      names no template (a bundle order) or the template no longer exists. */
  function DownloadFor(templates: seq<Template>, o: Order): (r: Reply<Download>)
    ensures r.Ok? <==> o.templateId.Some? && TemplateById(templates, o.templateId.value).Some?
    ensures r.Ok? ==> r.status == 200
    ensures r.Ok? ==> exists t :: t in templates && t.id == o.templateId.value && r.body == Download(t.pdfUrl, t.title)
    ensures r.Err? ==> r == Err(404, "Template not found")
  {
    if o.templateId.None? then Err(404, "Template not found")
    else match TemplateById(templates, o.templateId.value)
      case None => Err(404, "Template not found")
      case Some(t) => Ok(200, Download(t.pdfUrl, t.title))
  }

  /** `GET /api/payment/confirm?session_id=…`. `keyConfigured` says whether the provider's secret
      key is set; `sessionId` is the query parameter; `retrieved` is the provider's answer. */
  method Get(store: OrderStore, catalog: Catalog, keyConfigured: bool, sessionId: Option<string>, retrieved: Retrieved)
    returns (reply: Reply<Download>)
    requires store.Valid()
    modifies store
    ensures store.Valid() && store.ids == old(store.ids)
    ensures !keyConfigured ==> reply == Err(500, "Missing STRIPE_SECRET_KEY") && store.orders == old(store.orders)
    ensures keyConfigured && !Truthy(sessionId) ==>
              reply == Err(400, "Missing session_id") && store.orders == old(store.orders)
    ensures keyConfigured && Truthy(sessionId) && retrieved.RetrieveFailed? ==>
              reply == Err(500, ConfirmFailed) && store.orders == old(store.orders)
    ensures keyConfigured && Truthy(sessionId) && retrieved.NoSession? ==>
              reply == Err(400, "Invalid session") && store.orders == old(store.orders)
    ensures keyConfigured && Truthy(sessionId) && retrieved.Found? ==>
              var k := FirstMatch(old(store.orders), old(store.ids), BySession(sessionId));
              var session := retrieved.session;
              && (k.None? ==> reply == Err(404, "Order not found") && store.orders == old(store.orders))
              && (k.Some? && session.paymentStatus != "paid" ==>
                    reply == Err(400, "Payment not completed") && store.orders == old(store.orders))
              && (k.Some? && session.paymentStatus == "paid" ==>
                    var paid := MarkedAsPaid(old(store.orders)[k.value], session.paymentIntent);
                    && store.orders == PaidEffect(old(store.orders), old(store.ids), sessionId.value, session.paymentIntent)
                    && (SaveOutcome(old(store.orders), paid) != Saved ==> reply == Err(500, ConfirmFailed))
                    && (SaveOutcome(old(store.orders), paid) == Saved ==> reply == DownloadFor(catalog.templates, paid)))
  {
    if !keyConfigured {
      return Err(500, "Missing STRIPE_SECRET_KEY");
    }
    if !Truthy(sessionId) {
      return Err(400, "Missing session_id");
    }
    match retrieved
    case RetrieveFailed =>
      reply := Err(500, ConfirmFailed);
    case NoSession =>
      reply := Err(400, "Invalid session");
    case Found(session) =>
      var found := store.FindOne(BySession(sessionId));
      if found.None? {
        return Err(404, "Order not found");
      }
      if session.paymentStatus != "paid" {
        return Err(400, "Payment not completed");
      }
      var saved := store.MarkAsPaid(found.value, session.paymentIntent);
      if saved != Saved {
        return Err(500, ConfirmFailed);
      }
      reply := DownloadFor(catalog.templates, store.orders[found.value]);
  }

  /** The pull confirmation and the notification write the same state: after either, the other
      changes nothing more, whichever arrives first. */
  lemma ConfirmAndNotificationAgree(m: map<string, Order>, ids: seq<string>, sessionId: string, paymentIntent: Option<string>)
    requires Consistent(m, ids)
    ensures var notified := EventEffect(m, ids, Event(CheckoutSessionCompleted, EventObject(sessionId, paymentIntent)));
            && notified == PaidEffect(m, ids, sessionId, paymentIntent)
            && PaidEffect(notified, ids, sessionId, paymentIntent) == notified
            && EventEffect(PaidEffect(m, ids, sessionId, paymentIntent), ids,
                           Event(CheckoutSessionCompleted, EventObject(sessionId, paymentIntent))) == notified
  {
    PaidEffectIdempotent(m, ids, sessionId, paymentIntent);
  }

  /** A paid bundle order is marked paid but answered with 404: the handler only knows how to
      link a single template. */
  lemma BundleOrderConfirmsWithoutLink(templates: seq<Template>, o: Order, paymentIntent: Option<string>)
    requires o.templateId.None?
    ensures DownloadFor(templates, MarkedAsPaid(o, paymentIntent)) == Err(404, "Template not found")
  {
  }
}
