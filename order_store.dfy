/** The order collection as the handlers see it: documents by id, in insertion order, with the
    two unique indexes enforced on every save; and the effect of the shared "mark paid" transition. */
module OrderLedger {
  import opened Common
  import opened Orders

  /** The orders of `m` listed in the order given by `ids`. */
  function InOrder(m: map<string, Order>, ids: seq<string>): (r: seq<Order>)
    requires forall i :: 0 <= i < |ids| ==> ids[i] in m
    ensures |r| == |ids| && forall i :: 0 <= i < |ids| ==> r[i] == m[ids[i]]
  {
    if ids == [] then [] else [m[ids[0]]] + InOrder(m, ids[1..])
  }

  /** The collection invariant: `ids` lists every stored id once, each document is stored under its
      own id and satisfies the schema, and the unique indexes hold. */
  ghost predicate Consistent(m: map<string, Order>, ids: seq<string>)
  {
    && (forall i, j :: 0 <= i < j < |ids| ==> ids[i] != ids[j])
    && (forall k :: k in m <==> k in ids)
    && (forall k :: k in m ==> m[k].id == k && SchemaValid(m[k]))
    && UniqueKeys(m)
  }

  /** The first stored order, in insertion order, matching `key` (`findOne`). */
  function FirstMatch(m: map<string, Order>, ids: seq<string>, key: Key): (r: Option<string>)
    requires forall i :: 0 <= i < |ids| ==> ids[i] in m
    ensures r.Some? ==> r.value in m && r.value in ids && Matches(m[r.value], key)
    ensures r.None? ==> forall i :: 0 <= i < |ids| ==> !Matches(m[ids[i]], key)
  {
    match Find(ids, (k: string) => k in m && Matches(m[k], key))
    case None => None
    case Some(i) => Some(ids[i])
  }

  /** Under the collection invariant, a miss means no stored order matches at all. */
  lemma FirstMatchMiss(m: map<string, Order>, ids: seq<string>, key: Key)
    requires Consistent(m, ids) && FirstMatch(m, ids, key).None?
    ensures forall k :: k in m ==> !Matches(m[k], key)
  {
    forall k | k in m ensures !Matches(m[k], key) {
      var i :| 0 <= i < |ids| && ids[i] == k;
    }
  }

  /** A present session id or payment-intent id finds the one order that carries it. */
  lemma FirstMatchIsTheOrder(m: map<string, Order>, ids: seq<string>, key: Key, k: string)
    requires Consistent(m, ids) && k in m && Matches(m[k], key)
    requires (key.BySession? && key.sessionId.Some?) || (key.ByPaymentIntent? && key.paymentIntentId.Some?)
    ensures FirstMatch(m, ids, key) == Some(k)
  {
    var r := FirstMatch(m, ids, key);
    if r.Some? && key.BySession? {
      SessionIdentifiesOrder(m, r.value, k, key.sessionId.value);
    } else if r.Some? {
      PaymentIntentIdentifiesOrder(m, r.value, k, key.paymentIntentId.value);
    }
  }

  /** What `save` reports for `o`: schema errors first, then a unique-index violation. */
  function SaveOutcome(m: map<string, Order>, o: Order): SaveResult
  {
    var errs := OrderSchemaErrors(o.amount, CurrencyName(o.currency));
    if errs != [] then Invalid(errs)
    else if !Admissible(m, o) then DuplicateKey
    else Saved
  }

  /** The collection after saving `o` over the stored document with the same id. */
  function AfterUpdate(m: map<string, Order>, o: Order): map<string, Order>
  {
    if SaveOutcome(m, o) == Saved then m[o.id := o] else m
  }

  /** An update that succeeds keeps the collection invariant. */
  lemma AfterUpdateConsistent(m: map<string, Order>, ids: seq<string>, o: Order)
    requires Consistent(m, ids) && o.id in m
    ensures Consistent(AfterUpdate(m, o), ids)
  {
    if SaveOutcome(m, o) == Saved {
      AdmissiblePreservesUnique(m, o);
    }
  }

  /** The collection after the "mark paid" transition for the order of session `sessionId`,
      as the checkout-completed notification and the pull confirmation both apply it. */
  function PaidEffect(m: map<string, Order>, ids: seq<string>, sessionId: string, paymentIntent: Option<string>): map<string, Order>
    requires forall i :: 0 <= i < |ids| ==> ids[i] in m
  {
    match FirstMatch(m, ids, BySession(Some(sessionId)))
    case None => m
    case Some(k) => AfterUpdate(m, MarkedAsPaid(m[k], paymentIntent))
  }

  /** The "mark paid" transition keeps the collection invariant. */
  lemma PaidEffectConsistent(m: map<string, Order>, ids: seq<string>, sessionId: string, paymentIntent: Option<string>)
    requires Consistent(m, ids)
    ensures Consistent(PaidEffect(m, ids, sessionId, paymentIntent), ids)
  {
    var r := FirstMatch(m, ids, BySession(Some(sessionId)));
    if r.Some? {
      AfterUpdateConsistent(m, ids, MarkedAsPaid(m[r.value], paymentIntent));
    }
  }

  /** Replacing the first match by a document that still matches keeps it the first match. */
  lemma FirstMatchStable(m: map<string, Order>, ids: seq<string>, key: Key, o: Order)
    requires forall i :: 0 <= i < |ids| ==> ids[i] in m
    requires FirstMatch(m, ids, key) == Some(o.id) && Matches(o, key)
    ensures FirstMatch(m[o.id := o], ids, key) == Some(o.id)
  {
    var m1 := m[o.id := o];
    var p := (k: string) => k in m && Matches(m[k], key);
    var p1 := (k: string) => k in m1 && Matches(m1[k], key);
    var i :| 0 <= i < |ids| && Find(ids, p) == Some(i);
    assert ids[i] == o.id;
    assert forall j :: 0 <= j < i ==> ids[j] != o.id && !p1(ids[j]);
    assert p1(ids[i]);
    var r1 := Find(ids, p1);
    assert r1 == Some(i);
  }

  /** Applying "mark paid" for a session a second time, with the same payment intent, changes
      nothing: a repeated notification, a repeated confirmation, or one of each in either order,
      all end in the state one application gives. */
  lemma PaidEffectIdempotent(m: map<string, Order>, ids: seq<string>, sessionId: string, paymentIntent: Option<string>)
    requires Consistent(m, ids)
    ensures PaidEffect(PaidEffect(m, ids, sessionId, paymentIntent), ids, sessionId, paymentIntent)
         == PaidEffect(m, ids, sessionId, paymentIntent)
  {
    var key := BySession(Some(sessionId));
    var m1 := PaidEffect(m, ids, sessionId, paymentIntent);
    match FirstMatch(m, ids, key)
    case None =>
    case Some(k) =>
      var o1 := MarkedAsPaid(m[k], paymentIntent);
      if SaveOutcome(m, o1) == Saved {
        FirstMatchStable(m, ids, key, o1);
        MarkAsPaidIdempotent(m[k], paymentIntent);
        assert MarkedAsPaid(m1[k], paymentIntent) == o1;
        assert m1[k := o1] == m1;
      }
  }

  /** The order store: a collection of order documents. */
  class OrderStore {
    /** The documents, by id. */
    var orders: map<string, Order>
    /** The stored ids in insertion order (the collection's natural order). */
    var ids: seq<string>

    ghost predicate Valid()
      reads this
    {
      Consistent(orders, ids)
    }

    constructor ()
      ensures Valid() && orders == map[] && ids == []
    {
      orders := map[];
      ids := [];
    }

    /** Every stored order in insertion order. */
    function All(): (r: seq<Order>)
      reads this
      requires Valid()
      ensures |r| == |ids| && forall i :: 0 <= i < |ids| ==> r[i] == orders[ids[i]]
    {
      InOrder(orders, ids)
    }

    /** `findOne` for the given session id or payment-intent id. */
    function FindOne(key: Key): (r: Option<string>)
      reads this
      requires Valid()
      ensures r.Some? ==> r.value in orders && Matches(orders[r.value], key)
      ensures r.None? ==> forall k :: k in orders ==> !Matches(orders[k], key)
    {
      var r := FirstMatch(orders, ids, key);
      if r.None? then FirstMatchMiss(orders, ids, key); r else r
    }

    /** `findByStripeSessionId`: the one order of a session, if there is one. */
    function FindByStripeSessionId(sessionId: string): (r: Option<string>)
      reads this
      requires Valid()
      ensures r.Some? ==> r.value in orders && orders[r.value].stripeSessionId == Some(sessionId)
      ensures r.Some? ==> forall k :: k in orders && orders[k].stripeSessionId == Some(sessionId) ==> k == r.value
      ensures r.None? ==> forall k :: k in orders ==> orders[k].stripeSessionId != Some(sessionId)
    {
      var r := FindOne(BySession(Some(sessionId)));
      if r.Some? then
        assert forall k :: k in orders && orders[k].stripeSessionId == Some(sessionId) ==> k == r.value by {
          forall k | k in orders && orders[k].stripeSessionId == Some(sessionId) ensures k == r.value {
            SessionIdentifiesOrder(orders, k, r.value, sessionId);
          }
        }
        r
      else r
    }

    /** `save` of a new document `o`: refused by the schema, by a duplicate id or index value, or appended. */
    method Insert(o: Order) returns (r: SaveResult)
      requires Valid()
      modifies this
      ensures Valid()
      ensures r == (if o.id in old(orders) && SaveOutcome(old(orders), o) == Saved then DuplicateKey
                    else SaveOutcome(old(orders), o))
      ensures r == Saved ==> orders == old(orders)[o.id := o] && ids == old(ids) + [o.id]
      ensures r != Saved ==> orders == old(orders) && ids == old(ids)
    {
      r := SaveOutcome(orders, o);
      if r == Saved && o.id in orders {
        r := DuplicateKey;
      }
      if r == Saved {
        AdmissiblePreservesUnique(orders, o);
        orders := orders[o.id := o];
        ids := ids + [o.id];
      }
    }

    /** `save` of a loaded document `o` after changing some of its fields. */
    method Update(o: Order) returns (r: SaveResult)
      requires Valid() && o.id in orders
      modifies this
      ensures Valid()
      ensures r == SaveOutcome(old(orders), o)
      ensures orders == AfterUpdate(old(orders), o) && ids == old(ids)
    {
      AfterUpdateConsistent(orders, ids, o);
      r := SaveOutcome(orders, o);
      if r == Saved {
        orders := orders[o.id := o];
      }
    }

    /** `markAsPaid(paymentIntentId)` on the stored order `id`. */
    method MarkAsPaid(id: string, paymentIntentId: Option<string>) returns (r: SaveResult)
      requires Valid() && id in orders
      modifies this
      ensures Valid() && ids == old(ids)
      ensures r == SaveOutcome(old(orders), MarkedAsPaid(old(orders)[id], paymentIntentId))
      ensures orders == AfterUpdate(old(orders), MarkedAsPaid(old(orders)[id], paymentIntentId))
    {
      var o := orders[id];
      o := o.(status := Completed);
      o := o.(paymentStatus := Paid);
      o := o.(stripePaymentIntentId := paymentIntentId);
      r := Update(o);
    }

    /** `markAsFailed()` on the stored order `id`; the keys do not change, so the save always succeeds. */
    method MarkAsFailed(id: string) returns (r: SaveResult)
      requires Valid() && id in orders
      modifies this
      ensures Valid() && ids == old(ids)
      ensures r == Saved
      ensures orders == old(orders)[id := MarkedAsFailed(old(orders)[id])]
    {
      var o := orders[id];
      o := o.(status := Failed);
      o := o.(paymentStatus := PaymentFailed);
      SameKeysAdmissible(orders, o);
      r := Update(o);
    }

    /** `generateDownloadUrl()` on the stored order `id` at time `now`; only the link fields change. */
    method GenerateDownloadUrl(id: string, now: int) returns (r: SaveResult)
      requires Valid() && id in orders
      modifies this
      ensures Valid() && ids == old(ids)
      ensures r == Saved
      ensures orders == old(orders)[id := WithDownloadUrl(old(orders)[id], now)]
    {
      var o := orders[id];
      o := o.(downloadUrl := Some(DownloadPath(id)));
      o := o.(downloadExpiresAt := Some(now + DownloadLifetimeMs));
      SameKeysAdmissible(orders, o);
      r := Update(o);
    }
  }
}
