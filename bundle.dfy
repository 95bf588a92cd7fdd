/** The catalog's bundle record: its schema rules, the savings virtuals and the active-bundle
    query (`app/models/Bundle.js`). Prices are integer cents. */
module Bundles {
  import opened Common

  const TitleMax := 120
  const DescriptionMax := 500

  /** One bundle document, as stored (text fields already trimmed). */
  datatype Bundle = Bundle(
    id: string,
    title: string,
    description: Option<string>,
    templateIds: seq<string>,
    bundlePrice: int,
    isActive: bool,
    originalTotal: int)

  /** `savingsAmount`: what the bundle saves against buying its templates one by one, never negative. */
  function SavingsAmount(b: Bundle): (r: int)
    ensures r >= 0 && r >= b.originalTotal - b.bundlePrice
    ensures r == 0 || r == b.originalTotal - b.bundlePrice
  {
    if b.originalTotal - b.bundlePrice > 0 then b.originalTotal - b.bundlePrice else 0
  }

  /** `n / d` rounded to the nearest integer, halves upward (`Math.round` of the exact quotient). */
  function RoundHalfUp(n: int, d: int): (r: int)
    requires d > 0
    ensures 2 * d * r - d <= 2 * n < 2 * d * r + d
  {
    var q := (2 * n + d) / (2 * d);
    assert 2 * d * q <= 2 * n + d < 2 * d * q + 2 * d;
    q
  }

  /** `savingsPercent`: 0 when the original total is 0, otherwise the savings as a whole percentage
      of the original total, rounded half up. */
  function SavingsPercent(b: Bundle): (r: int)
    ensures b.originalTotal == 0 ==> r == 0
    ensures b.originalTotal > 0 ==>
      var saved := SavingsAmount(b);
      2 * b.originalTotal * r - b.originalTotal <= 200 * saved < 2 * b.originalTotal * r + b.originalTotal
  {
    var original := b.originalTotal;
    var saved := SavingsAmount(b);
    if original == 0 then 0
    else if original > 0 then RoundHalfUp(100 * saved, original)
    else RoundHalfUp(-100 * saved, -original)
  }

  lemma MulMonotone(c: int, x: int, y: int)
    requires c >= 0 && x <= y
    ensures c * x <= c * y
  {
    assert c * y - c * x == c * (y - x);
  }

  /** A whole number within half of `100 * saved / original` lies in 0..100 when the savings
      are between 0 and the original total. */
  lemma RoundedPercentInRange(original: int, saved: int, r: int)
    requires original > 0 && 0 <= saved <= original
    requires 2 * original * r - original <= 200 * saved < 2 * original * r + original
    ensures 0 <= r <= 100
  {
    MulMonotone(200, saved, original);
    if r > 100 {
      MulMonotone(original, 101, r);
      assert false;
    }
    if r < 0 {
      MulMonotone(original, r, -1);
      assert false;
    }
  }

  /** With a non-negative price the savings never exceed the original total, so the percentage
      lies between 0 and 100. */
  lemma SavingsPercentBounds(b: Bundle)
    requires b.bundlePrice >= 0 && b.originalTotal >= 0
    ensures 0 <= SavingsAmount(b) <= b.originalTotal
    ensures 0 <= SavingsPercent(b) <= 100
  {
    if b.originalTotal > 0 {
      RoundedPercentInRange(b.originalTotal, SavingsAmount(b), SavingsPercent(b));
    }
  }

  /** The default message for a number below its minimum, naming the path and the value. */
  function OriginalTotalMinMessage(value: int): string
  {
    "Path `originalTotal` (" + IntText(value) + ") is less than minimum allowed value (0)."
  }

  /** The messages schema validation reports for `b` (one per failing path, in schema order). */
  function BundleErrors(b: Bundle): (errs: seq<string>)
    ensures errs == [] <==>
      && b.title != "" && |b.title| <= TitleMax
      && (b.description.Some? ==> |b.description.value| <= DescriptionMax)
      && b.bundlePrice >= 0 && b.originalTotal >= 0
  {
    (if b.title == "" then ["Title is required"]
     else if |b.title| > TitleMax then ["Title cannot be more than 120 characters"] else [])
    + (if b.description.Some? && |b.description.value| > DescriptionMax
       then ["Description cannot be more than 500 characters"] else [])
    + (if b.bundlePrice < 0 then ["Price cannot be negative"] else [])
    + (if b.originalTotal < 0 then [OriginalTotalMinMessage(b.originalTotal)] else [])
  }

  /** A bundle that satisfies the schema. */
  predicate ValidBundle(b: Bundle)
  {
    BundleErrors(b) == []
  }

  /** `getActiveBundles`: exactly the active bundles, newest first. */
  function GetActiveBundles(bs: seq<Bundle>): (r: seq<Bundle>)
    ensures r == Reverse(Filter(bs, (b: Bundle) => b.isActive))
    ensures forall b :: b in r <==> b in bs && b.isActive
  {
    NewestFirst(bs, (b: Bundle) => b.isActive)
  }

  /** The first bundle with this id (`findById`). */
  function BundleById(bs: seq<Bundle>, id: string): (r: Option<Bundle>)
    ensures r.Some? ==> r.value in bs && r.value.id == id
    ensures r.None? ==> forall b :: b in bs ==> b.id != id
  {
    match Find(bs, (b: Bundle) => b.id == id)
    case None => None
    case Some(i) => Some(bs[i])
  }
}
