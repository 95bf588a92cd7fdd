/** The bundles endpoint (`app/api/bundles/route.js`): listing bundles with their savings, and
    creating a bundle from existing templates with its original total computed from their prices. */
module BundlesApi {
  import opened Common
  import opened Templates
  import opened Bundles
  import opened CatalogStore

  // ---------------------------------------------------------------------------
  // GET
  // ---------------------------------------------------------------------------

  /** The fields of a member template a listing shows. */
  datatype TemplateSummary = TemplateSummary(id: string, title: string, price: int, imageUrl: string, pdfUrl: string)

  /** One listed bundle, with its savings and its member templates. */
  datatype BundleView = BundleView(
    id: string,
    title: string,
    description: Option<string>,
    isActive: bool,
    bundlePrice: int,
    originalTotal: int,
    savingsAmount: int,
    savingsPercent: int,
    templates: seq<TemplateSummary>)

  /** The summary a listing shows of one member template. */
  function Summary(t: Template): TemplateSummary
  {
    TemplateSummary(t.id, t.title, t.price, t.imageUrl, t.pdfUrl)
  }

  /** The listed ids that name a stored template, in the ids' order. */
  function FoundIds(templates: seq<Template>, ids: seq<string>): seq<string>
  {
    Filter(ids, (id: string) => TemplateById(templates, id).Some?)
  }

  /** The templates the ids name, in the ids' order; ids that name no template are dropped. */
  function Populate(templates: seq<Template>, ids: seq<string>): (r: seq<TemplateSummary>)
    ensures |r| == |FoundIds(templates, ids)| <= |ids|
    ensures forall i :: 0 <= i < |r| ==>
              TemplateById(templates, FoundIds(templates, ids)[i]).Some?
              && r[i] == Summary(TemplateById(templates, FoundIds(templates, ids)[i]).value)
    ensures forall s :: s in r ==> s.id in ids && exists t :: t in templates && t.id == s.id && s.price == t.price
  {
    if ids == [] then []
    else
      var rest := Populate(templates, ids[1..]);
      assert ids == [ids[0]] + ids[1..];
      FilterCons(ids[0], ids[1..], (id: string) => TemplateById(templates, id).Some?);
      match TemplateById(templates, ids[0])
      case None => rest
      case Some(t) =>
        var r := [Summary(t)] + rest;
        assert forall i :: 1 <= i < |r| ==> r[i] == rest[i - 1];
        r
  }

  /** Every listed id that names a stored template shows up, as that template's summary. */
  lemma PopulateComplete(templates: seq<Template>, ids: seq<string>, id: string)
    requires id in ids && TemplateById(templates, id).Some?
    ensures Summary(TemplateById(templates, id).value) in Populate(templates, ids)
  {
    var found := FoundIds(templates, ids);
    FilterMembership(ids, (id: string) => TemplateById(templates, id).Some?, id);
    var i :| 0 <= i < |found| && found[i] == id;
    assert Populate(templates, ids)[i] == Summary(TemplateById(templates, id).value);
  }

  function View(templates: seq<Template>, b: Bundle): BundleView
  {
    BundleView(b.id, b.title, b.description, b.isActive, b.bundlePrice, b.originalTotal,
               SavingsAmount(b), SavingsPercent(b), Populate(templates, b.templateIds))
  }

  /** The bundles a listing shows, newest first: the active ones, or every one when `all=true`. */
  function Listed(bundles: seq<Bundle>, allParam: Option<string>): (r: seq<Bundle>)
    ensures r == Reverse(Filter(bundles, (b: Bundle) => allParam == Some("true") || b.isActive))
    ensures forall b :: b in r <==> b in bundles && (allParam != Some("true") ==> b.isActive)
  {
    NewestFirst(bundles, (b: Bundle) => allParam == Some("true") || b.isActive)
  }

  /** `GET /api/bundles?all=…`. */
  function Get(templates: seq<Template>, bundles: seq<Bundle>, allParam: Option<string>): (r: seq<BundleView>)
    ensures |r| == |Listed(bundles, allParam)|
    ensures forall i :: 0 <= i < |r| ==>
              && r[i].id == Listed(bundles, allParam)[i].id && r[i].title == Listed(bundles, allParam)[i].title
              && r[i].description == Listed(bundles, allParam)[i].description
              && r[i].isActive == Listed(bundles, allParam)[i].isActive
              && r[i].bundlePrice == Listed(bundles, allParam)[i].bundlePrice
              && r[i].originalTotal == Listed(bundles, allParam)[i].originalTotal
              && r[i].savingsAmount == SavingsAmount(Listed(bundles, allParam)[i])
              && r[i].savingsPercent == SavingsPercent(Listed(bundles, allParam)[i])
              && r[i].templates == Populate(templates, Listed(bundles, allParam)[i].templateIds)
    ensures forall i :: 0 <= i < |r| ==> r[i].savingsAmount >= 0
    ensures allParam != Some("true") ==> forall i :: 0 <= i < |r| ==> r[i].isActive
  {
    var listed := Listed(bundles, allParam);
    assert forall i :: 0 <= i < |listed| ==> listed[i] in listed;
    seq(|listed|, i requires 0 <= i < |listed| => View(templates, listed[i]))
  }

  /** Over a valid catalog every listed bundle saves between nothing and its original total, and
      its percentage lies between 0 and 100. */
  lemma ListedSavingsInRange(templates: seq<Template>, bundles: seq<Bundle>, allParam: Option<string>)
    requires forall i :: 0 <= i < |bundles| ==> ValidBundle(bundles[i])
    ensures forall v :: v in Get(templates, bundles, allParam) ==>
              0 <= v.savingsAmount <= v.originalTotal && 0 <= v.savingsPercent <= 100
  {
    var listed := Listed(bundles, allParam);
    var r := Get(templates, bundles, allParam);
    forall v | v in r ensures 0 <= v.savingsAmount <= v.originalTotal && 0 <= v.savingsPercent <= 100 {
      var i :| 0 <= i < |r| && r[i] == v;
      assert listed[i] in listed;
      var b := listed[i];
      assert b in bundles;
      var j :| 0 <= j < |bundles| && bundles[j] == b;
      assert ValidBundle(bundles[j]);
      SavingsPercentBounds(b);
    }
  }

  // ---------------------------------------------------------------------------
  // POST
  // ---------------------------------------------------------------------------

  /** The fields of a posted bundle; prices in cents. `templateIds` is `None` when the field is not
      an array; `isActive` is the field already read as a boolean. */
  datatype BundleBody = BundleBody(
    title: Option<string>,
    description: Option<string>,
    templateIds: Option<seq<string>>,
    bundlePrice: Option<int>,
    isActive: Option<bool>)

  const MissingBundleFields := "Missing required fields: title, templateIds(>=2), bundlePrice"

  /** A title, at least two template ids and a price (0 included) are present. */
  predicate BundleFieldsPresent(body: BundleBody)
  {
    Truthy(body.title) && body.templateIds.Some? && |body.templateIds.value| >= 2 && body.bundlePrice.Some?
  }

  /** The templates whose id is among `ids` (one database query with `$in`), in catalog order. */
  function Matched(templates: seq<Template>, ids: seq<string>): (r: seq<Template>)
    ensures |r| <= |templates|
  {
    Filter(templates, (t: Template) => t.id in ids)
  }

  /** The sum of the templates' prices. */
  function SumPrices(ts: seq<Template>): int
  {
    if ts == [] then 0 else ts[0].price + SumPrices(ts[1..])
  }

  lemma {:induction false} SumPricesNonNegative(ts: seq<Template>)
    requires forall i :: 0 <= i < |ts| ==> ts[i].price >= 0
    ensures SumPrices(ts) >= 0
  {
    if ts != [] {
      SumPricesNonNegative(ts[1..]);
    }
  }

  /** The original total of a new bundle: the sum of its member templates' prices, never
      negative over a valid catalog. */
  function OriginalTotal(templates: seq<Template>, ids: seq<string>): (r: int)
    ensures r == SumPrices(Matched(templates, ids))
    ensures (forall i :: 0 <= i < |templates| ==> ValidTemplate(templates[i])) ==> r >= 0
  {
    var matched := Matched(templates, ids);
    if forall i :: 0 <= i < |templates| ==> ValidTemplate(templates[i]) then
      forall i | 0 <= i < |matched| ensures matched[i].price >= 0 {
        FilterMembership(templates, (t: Template) => t.id in ids, matched[i]);
      }
      SumPricesNonNegative(matched);
      SumPrices(matched)
    else
      SumPrices(matched)
  }

  /** The templates summed are exactly the catalog's templates that the ids name. */
  lemma MatchedExactly(templates: seq<Template>, ids: seq<string>, t: Template)
    ensures t in Matched(templates, ids) <==> t in templates && t.id in ids
  {
    FilterMembership(templates, (t: Template) => t.id in ids, t);
  }

  /** The bundle document built from the body: text trimmed, `isActive` defaulting to true. */
  function NewBundle(id: string, body: BundleBody, originalTotal: int): (b: Bundle)
    requires BundleFieldsPresent(body)
    ensures b.id == id && b.templateIds == body.templateIds.value && b.bundlePrice == body.bundlePrice.value
    ensures b.isActive == (body.isActive.None? || body.isActive.value)
    ensures b.originalTotal == originalTotal && b.title == Trim(body.title.value)
    ensures b.description == if body.description.Some? then Some(Trim(body.description.value)) else None
  {
    Bundle(id, Trim(body.title.value),
           if body.description.Some? then Some(Trim(body.description.value)) else None,
           body.templateIds.value, body.bundlePrice.value,
           if body.isActive.Some? then body.isActive.value else true,
           originalTotal)
  }

  /** `POST /api/bundles`; `bundleId` is the new document's id. */
  method Post(catalog: Catalog, body: BundleBody, bundleId: string) returns (reply: Reply<Bundle>)
    requires catalog.Valid()
    modifies catalog
    ensures catalog.Valid() && catalog.templates == old(catalog.templates)
    ensures !BundleFieldsPresent(body) ==> reply == Err(400, MissingBundleFields) && catalog.bundles == old(catalog.bundles)
    ensures BundleFieldsPresent(body) ==>
              var ids := body.templateIds.value;
              && (|Matched(old(catalog.templates), ids)| != |ids| ==>
                    reply == Err(400, "One or more templates not found") && catalog.bundles == old(catalog.bundles))
              && (|Matched(old(catalog.templates), ids)| == |ids| ==>
                    var b := NewBundle(bundleId, body, OriginalTotal(old(catalog.templates), ids));
                    && (BundleErrors(b) != [] ==> reply == Err(400, Join(BundleErrors(b), ", ")) && catalog.bundles == old(catalog.bundles))
                    && (BundleErrors(b) == [] && BundleById(old(catalog.bundles), bundleId).Some? ==>
                          reply == Err(500, "Failed to create bundle") && catalog.bundles == old(catalog.bundles))
                    && (BundleErrors(b) == [] && BundleById(old(catalog.bundles), bundleId).None? ==>
                          reply == Ok(201, b) && catalog.bundles == old(catalog.bundles) + [b]))
  {
    if !BundleFieldsPresent(body) {
      return Err(400, MissingBundleFields);
    }
    var ids := body.templateIds.value;
    var matched := Matched(catalog.templates, ids);
    if |matched| != |ids| {
      return Err(400, "One or more templates not found");
    }
    var b := NewBundle(bundleId, body, OriginalTotal(catalog.templates, ids));
    var saved := catalog.AddBundle(b);
    match saved
    case Saved => reply := Ok(201, b);
    case Invalid(errs) => reply := Err(400, Join(errs, ", "));
    case DuplicateKey => reply := Err(500, "Failed to create bundle");
  }

  /** A bundle created over a valid catalog has a non-negative original total, so its schema
      check can only fail on the title, the description or a negative price. */
  lemma CreatedOriginalTotalValid(templates: seq<Template>, ids: seq<string>)
    requires forall i :: 0 <= i < |templates| ==> ValidTemplate(templates[i])
    ensures OriginalTotal(templates, ids) >= 0
  {
  }

  // ---------------------------------------------------------------------------
  // When is every listed template found?
  // ---------------------------------------------------------------------------

  /** The elements of a sequence, as a set. */
  function Elements(s: seq<string>): (r: set<string>)
    ensures forall x :: x in r <==> x in s
  {
    if s == [] then {} else {s[0]} + Elements(s[1..])
  }

  /** The ids of a sequence of templates, as a set. */
  function IdSet(ts: seq<Template>): set<string>
  {
    if ts == [] then {} else IdSet(ts[1..]) + {ts[0].id}
  }

  lemma {:induction false} IdSetMembership(ts: seq<Template>, x: string)
    ensures x in IdSet(ts) <==> exists t :: t in ts && t.id == x
  {
    if ts != [] {
      IdSetMembership(ts[1..], x);
      assert forall t :: t in ts <==> t == ts[0] || t in ts[1..];
    }
  }

  predicate Distinct(s: seq<string>)
  {
    forall i, j :: 0 <= i < j < |s| ==> s[i] != s[j]
  }

  /** A sequence whose head does not recur is free of repeats exactly when its tail is. */
  lemma DistinctCons(s: seq<string>)
    requires s != [] && s[0] !in s[1..]
    ensures Distinct(s) <==> Distinct(s[1..])
  {
    if Distinct(s[1..]) {
      forall i, j | 0 <= i < j < |s| ensures s[i] != s[j] {
        if i == 0 {
          assert s[j] == s[1..][j - 1];
        } else {
          assert s[i] == s[1..][i - 1] && s[j] == s[1..][j - 1];
        }
      }
    }
  }

  /** A sequence whose head recurs has a repeat. */
  lemma RepeatedHead(s: seq<string>)
    requires s != [] && s[0] in s[1..]
    ensures !Distinct(s)
  {
    var j :| 0 <= j < |s[1..]| && s[1..][j] == s[0];
    assert s[0] == s[j + 1];
  }

  /** A sequence has as many distinct elements as entries exactly when no entry repeats. */
  lemma {:induction false} ElementsCard(s: seq<string>)
    ensures |Elements(s)| <= |s|
    ensures |Elements(s)| == |s| <==> Distinct(s)
  {
    if s != [] {
      ElementsCard(s[1..]);
      if s[0] in s[1..] {
        assert Elements(s) == Elements(s[1..]);
        RepeatedHead(s);
      } else {
        assert s[0] !in Elements(s[1..]);
        assert |Elements(s)| == |Elements(s[1..])| + 1;
        DistinctCons(s);
      }
    }
  }


  /** Against templates with distinct ids, the `$in` query returns one template per distinct id
      that names one. */
  lemma {:induction false} MatchedCount(templates: seq<Template>, ids: seq<string>)
    requires forall i, j :: 0 <= i < j < |templates| ==> templates[i].id != templates[j].id
    ensures |Matched(templates, ids)| == |Elements(ids) * IdSet(templates)|
  {
    if templates != [] {
      var t := templates[0];
      var rest := templates[1..];
      var e := Elements(ids);
      MatchedCount(rest, ids);
      assert t.id !in IdSet(rest) by {
        IdSetMembership(rest, t.id);
      }
      assert t.id !in e * IdSet(rest);
      if t.id in ids {
        assert Matched(templates, ids) == [t] + Matched(rest, ids);
        assert e * IdSet(templates) == e * IdSet(rest) + {t.id};
      } else {
        assert Matched(templates, ids) == Matched(rest, ids);
        assert e * IdSet(templates) == e * IdSet(rest);
      }
    }
  }

  /** A subset as large as its superset is the whole superset. */
  lemma {:induction false} SubsetCard(a: set<string>, b: set<string>)
    requires a <= b
    ensures |a| <= |b|
    ensures |a| == |b| ==> a == b
    decreases |b|
  {
    if b != {} {
      var x :| x in b;
      SubsetCard(a - {x}, b - {x});
      if x in a {
        assert a == (a - {x}) + {x};
        assert b == (b - {x}) + {x};
      } else {
        assert a - {x} == a;
      }
    }
  }

  /** Over a catalog with distinct ids, the handler's count check passes exactly when the listed ids
      are distinct and every one names an existing template: a repeated id is refused even
      when the template exists. */
  lemma AllTemplatesFoundExactly(templates: seq<Template>, ids: seq<string>)
    requires forall i, j :: 0 <= i < j < |templates| ==> templates[i].id != templates[j].id
    ensures |Matched(templates, ids)| == |ids| <==>
              Distinct(ids) && forall id :: id in ids ==> exists t :: t in templates && t.id == id
  {
    var s := Elements(ids);
    var found := s * IdSet(templates);
    forall x ensures x in IdSet(templates) <==> exists t :: t in templates && t.id == x {
      IdSetMembership(templates, x);
    }
    MatchedCount(templates, ids);
    ElementsCard(ids);
    SubsetCard(found, s);
    if Distinct(ids) && forall id :: id in ids ==> exists t :: t in templates && t.id == id {
      assert found == s;
    }
  }
}
