/** The payment provider's notification endpoint (`app/api/payment/webhook/route.js`): a signed
    event moves at most one order. Verifying the signature is the provider's library; here its
    outcome is an input (`None` when it rejects the payload). */
module PaymentWebhook {
  import opened Common
  import opened Orders
  import opened OrderLedger

  /** The event's payload as far as the handlers read it: a checkout session (its id and payment
      intent), a payment intent (its id) or a charge (its payment intent). */
  datatype EventObject = EventObject(id: string, paymentIntent: Option<string>)

  datatype Event = Event(eventType: string, payload: EventObject)

  const CheckoutSessionCompleted := "checkout.session.completed"
  const PaymentIntentFailed := "payment_intent.payment_failed"
  const ChargeRefunded := "charge.refunded"

  /** The collection after a failed-payment event for payment intent `paymentIntentId`. */
  function FailedEffect(m: map<string, Order>, ids: seq<string>, paymentIntentId: string): map<string, Order>
    requires forall i :: 0 <= i < |ids| ==> ids[i] in m
  {
    match FirstMatch(m, ids, ByPaymentIntent(Some(paymentIntentId)))
    case None => m
    case Some(k) => AfterUpdate(m, MarkedAsFailed(m[k]))
  }

  /** The collection after a refund event for a charge of payment intent `paymentIntent`. A charge
      without one looks up the orders that have none. */
  function RefundEffect(m: map<string, Order>, ids: seq<string>, paymentIntent: Option<string>): map<string, Order>
    requires forall i :: 0 <= i < |ids| ==> ids[i] in m
  {
    match FirstMatch(m, ids, ByPaymentIntent(paymentIntent))
    case None => m
    case Some(k) => AfterUpdate(m, MarkedAsRefunded(m[k]))
  }

  /** The collection after a verified event: dispatch on its type; other types change nothing. */
  function EventEffect(m: map<string, Order>, ids: seq<string>, e: Event): map<string, Order>
    requires forall i :: 0 <= i < |ids| ==> ids[i] in m
  {
    if e.eventType == CheckoutSessionCompleted then PaidEffect(m, ids, e.payload.id, e.payload.paymentIntent)
    else if e.eventType == PaymentIntentFailed then FailedEffect(m, ids, e.payload.id)
    else if e.eventType == ChargeRefunded then RefundEffect(m, ids, e.payload.paymentIntent)
    else m
  }

  /** Either nothing changes or exactly one stored order is replaced, by a version of itself that
      records the same purchase. */
  predicate TouchesAtMostOne(m: map<string, Order>, m1: map<string, Order>)
  {
    m1 == m || exists k :: k in m && k in m1 && m1 == m[k := m1[k]] && SamePurchase(m[k], m1[k])
  }

  /** Saving a changed version of one stored order, with the purchase unchanged, keeps the
      collection invariant and touches only that order. */
  lemma UpdateTouchesOne(m: map<string, Order>, ids: seq<string>, o: Order)
    requires Consistent(m, ids) && o.id in m && SamePurchase(m[o.id], o)
    ensures Consistent(AfterUpdate(m, o), ids)
    ensures TouchesAtMostOne(m, AfterUpdate(m, o))
  {
    AfterUpdateConsistent(m, ids, o);
    if SaveOutcome(m, o) == Saved {
      var m1 := m[o.id := o];
      assert m1 == m[o.id := m1[o.id]];
    }
  }

  /** Every event keeps the collection invariant and touches at most one order. */
  lemma EventEffectConsistent(m: map<string, Order>, ids: seq<string>, e: Event)
    requires Consistent(m, ids)
    ensures Consistent(EventEffect(m, ids, e), ids)
    ensures TouchesAtMostOne(m, EventEffect(m, ids, e))
  {
    if e.eventType == CheckoutSessionCompleted {
      var r := FirstMatch(m, ids, BySession(Some(e.payload.id)));
      if r.Some? {
        UpdateTouchesOne(m, ids, MarkedAsPaid(m[r.value], e.payload.paymentIntent));
      }
    } else if e.eventType == PaymentIntentFailed {
      var r := FirstMatch(m, ids, ByPaymentIntent(Some(e.payload.id)));
      if r.Some? {
        UpdateTouchesOne(m, ids, MarkedAsFailed(m[r.value]));
      }
    } else if e.eventType == ChargeRefunded {
      var r := FirstMatch(m, ids, ByPaymentIntent(e.payload.paymentIntent));
      if r.Some? {
        UpdateTouchesOne(m, ids, MarkedAsRefunded(m[r.value]));
      }
    }
  }

  /** A repeated failed-payment event changes nothing more. */
  lemma FailedEffectIdempotent(m: map<string, Order>, ids: seq<string>, paymentIntentId: string)
    requires Consistent(m, ids)
    ensures FailedEffect(FailedEffect(m, ids, paymentIntentId), ids, paymentIntentId) == FailedEffect(m, ids, paymentIntentId)
  {
    var key := ByPaymentIntent(Some(paymentIntentId));
    var r := FirstMatch(m, ids, key);
    if r.Some? {
      var o1 := MarkedAsFailed(m[r.value]);
      SameKeysAdmissible(m, o1);
      FirstMatchStable(m, ids, key, o1);
      var m1 := m[r.value := o1];
      assert FailedEffect(m, ids, paymentIntentId) == m1;
      AdmissiblePreservesUnique(m, o1);
      SameKeysAdmissible(m1, o1);
      assert m1[r.value := o1] == m1;
    }
  }

  /** A repeated refund event changes nothing more. */
  lemma RefundEffectIdempotent(m: map<string, Order>, ids: seq<string>, paymentIntent: Option<string>)
    requires Consistent(m, ids)
    ensures RefundEffect(RefundEffect(m, ids, paymentIntent), ids, paymentIntent) == RefundEffect(m, ids, paymentIntent)
  {
    var key := ByPaymentIntent(paymentIntent);
    var r := FirstMatch(m, ids, key);
    if r.Some? {
      var o1 := MarkedAsRefunded(m[r.value]);
      SameKeysAdmissible(m, o1);
      FirstMatchStable(m, ids, key, o1);
      var m1 := m[r.value := o1];
      assert RefundEffect(m, ids, paymentIntent) == m1;
      AdmissiblePreservesUnique(m, o1);
      SameKeysAdmissible(m1, o1);
      assert m1[r.value := o1] == m1;
    }
  }

  /** Delivering the same event twice leaves the collection as one delivery does: the provider's
      retries are harmless. */
  lemma EventReplayIsHarmless(m: map<string, Order>, ids: seq<string>, e: Event)
    requires Consistent(m, ids)
    ensures EventEffect(EventEffect(m, ids, e), ids, e) == EventEffect(m, ids, e)
  {
    if e.eventType == CheckoutSessionCompleted {
      PaidEffectIdempotent(m, ids, e.payload.id, e.payload.paymentIntent);
    } else if e.eventType == PaymentIntentFailed {
      FailedEffectIdempotent(m, ids, e.payload.id);
    } else if e.eventType == ChargeRefunded {
      RefundEffectIdempotent(m, ids, e.payload.paymentIntent);
    }
  }

  /** A failed-payment event after the checkout completed moves the completed, paid order to
      failed: no transition guards a settled order against a later failure. */
  lemma FailureAfterCompletionDowngrades(m: map<string, Order>, ids: seq<string>, k: string, sessionId: string, paymentIntentId: string)
    requires Consistent(m, ids) && k in m && m[k].stripeSessionId == Some(sessionId)
    requires Admissible(m, MarkedAsPaid(m[k], Some(paymentIntentId)))
    ensures var paid := EventEffect(m, ids, Event(CheckoutSessionCompleted, EventObject(sessionId, Some(paymentIntentId))));
            && paid[k] == MarkedAsPaid(m[k], Some(paymentIntentId))
            && EventEffect(paid, ids, Event(PaymentIntentFailed, EventObject(paymentIntentId, None)))[k]
               == MarkedAsFailed(MarkedAsPaid(m[k], Some(paymentIntentId)))
  {
    FirstMatchIsTheOrder(m, ids, BySession(Some(sessionId)), k);
    var paid := EventEffect(m, ids, Event(CheckoutSessionCompleted, EventObject(sessionId, Some(paymentIntentId))));
    assert paid == m[k := MarkedAsPaid(m[k], Some(paymentIntentId))];
    PaidEffectConsistent(m, ids, sessionId, Some(paymentIntentId));
    FirstMatchIsTheOrder(paid, ids, ByPaymentIntent(Some(paymentIntentId)), k);
    SameKeysAdmissible(paid, MarkedAsFailed(paid[k]));
  }

  /** A refund event for a known payment intent changes only the payment status of its order. */
  lemma RefundChangesOnlyPaymentStatus(m: map<string, Order>, ids: seq<string>, k: string, paymentIntentId: string)
    requires Consistent(m, ids) && k in m && m[k].stripePaymentIntentId == Some(paymentIntentId)
    ensures EventEffect(m, ids, Event(ChargeRefunded, EventObject("", Some(paymentIntentId))))
         == m[k := m[k].(paymentStatus := Refunded)]
  {
    FirstMatchIsTheOrder(m, ids, ByPaymentIntent(Some(paymentIntentId)), k);
    SameKeysAdmissible(m, MarkedAsRefunded(m[k]));
  }

  /** An order that has no payment intent yet (every order while its checkout is open) is not
      touched by a failed-payment event, nor by a refund of a charge that names its intent. */
  lemma NoIntentNoFailureOrRefund(m: map<string, Order>, ids: seq<string>, k: string, e: Event)
    requires Consistent(m, ids) && k in m && m[k].stripePaymentIntentId.None?
    requires e.eventType == PaymentIntentFailed || (e.eventType == ChargeRefunded && e.payload.paymentIntent.Some?)
    ensures k in EventEffect(m, ids, e) && EventEffect(m, ids, e)[k] == m[k]
  {
  }

  /** A refund of a charge that names no payment intent hits the oldest order without one, as the
      `null` query matches missing fields. */
  lemma RefundWithoutIntentHitsOldestUnpaid(m: map<string, Order>, ids: seq<string>, i: nat)
    requires Consistent(m, ids) && i < |ids| && m[ids[i]].stripePaymentIntentId.None?
    requires forall j :: 0 <= j < i ==> m[ids[j]].stripePaymentIntentId.Some?
    ensures var m1 := EventEffect(m, ids, Event(ChargeRefunded, EventObject("", None)));
            ids[i] in m1 && m1[ids[i]].paymentStatus == Refunded
  {
    var key := ByPaymentIntent(None);
    var p := (k: string) => k in m && Matches(m[k], key);
    assert p(ids[i]);
    var r := Find(ids, p);
    assert r == Some(i);
    SameKeysAdmissible(m, MarkedAsRefunded(m[ids[i]]));
  }

  // ---------------------------------------------------------------------------
  // The handlers, over the store
  // ---------------------------------------------------------------------------

  /** `handleCheckoutSessionCompleted`: the session's order, if any, is marked paid with the
      session's payment intent; a failed save is swallowed. */
  method HandleCheckoutSessionCompleted(store: OrderStore, session: EventObject)
    requires store.Valid()
    modifies store
    ensures store.Valid() && store.ids == old(store.ids)
    ensures store.orders == PaidEffect(old(store.orders), old(store.ids), session.id, session.paymentIntent)
  {
    var found := store.FindByStripeSessionId(session.id);
    if found.Some? {
      var _ := store.MarkAsPaid(found.value, session.paymentIntent);
    }
  }

  /** `handlePaymentFailed`: the order carrying this payment intent, if any, is marked failed. */
  method HandlePaymentFailed(store: OrderStore, paymentIntent: EventObject)
    requires store.Valid()
    modifies store
    ensures store.Valid() && store.ids == old(store.ids)
    ensures store.orders == FailedEffect(old(store.orders), old(store.ids), paymentIntent.id)
  {
    var found := store.FindOne(ByPaymentIntent(Some(paymentIntent.id)));
    if found.Some? {
      var _ := store.MarkAsFailed(found.value);
      SameKeysAdmissible(old(store.orders), MarkedAsFailed(old(store.orders)[found.value]));
    }
  }

  /** `handleRefund`: the first order whose payment intent equals the charge's is marked refunded. */
  method HandleRefund(store: OrderStore, charge: EventObject)
    requires store.Valid()
    modifies store
    ensures store.Valid() && store.ids == old(store.ids)
    ensures store.orders == RefundEffect(old(store.orders), old(store.ids), charge.paymentIntent)
  {
    var found := store.FindOne(ByPaymentIntent(charge.paymentIntent));
    if found.Some? {
      var o := store.orders[found.value];
      o := o.(paymentStatus := Refunded);
      var _ := store.Update(o);
    }
  }

  /** The endpoint. `signature` is the signature header; `verified` is the event the provider's
      library constructs from the raw body, or `None` when verification fails. */
  method Post(store: OrderStore, signature: Option<string>, verified: Option<Event>) returns (reply: Reply<bool>)
    requires store.Valid()
    modifies store
    ensures store.Valid() && store.ids == old(store.ids)
    ensures !Truthy(signature) ==> reply == Err(400, "No signature provided") && store.orders == old(store.orders)
    ensures Truthy(signature) && verified.None? ==>
              reply == Err(400, "Invalid signature") && store.orders == old(store.orders)
    ensures Truthy(signature) && verified.Some? ==>
              reply == Ok(200, true) && store.orders == EventEffect(old(store.orders), old(store.ids), verified.value)
  {
    if !Truthy(signature) {
      return Err(400, "No signature provided");
    }
    if verified.None? {
      return Err(400, "Invalid signature");
    }
    var event := verified.value;
    if event.eventType == CheckoutSessionCompleted {
      HandleCheckoutSessionCompleted(store, event.payload);
    } else if event.eventType == PaymentIntentFailed {
      HandlePaymentFailed(store, event.payload);
    } else if event.eventType == ChargeRefunded {
      HandleRefund(store, event.payload);
    }
    reply := Ok(200, true);
  }
}
