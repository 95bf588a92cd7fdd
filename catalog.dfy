/** The catalog store: template and bundle documents in creation order. Saves validate against
    the schema and refuse a duplicate id; `incrementDownloadCount` updates one template in place. */
module CatalogStore {
  import opened Common
  import opened Templates
  import opened Bundles

  /** Stored templates: distinct ids, each valid under the schema. */
  predicate TemplatesValid(ts: seq<Template>)
  {
    && (forall i, j :: 0 <= i < j < |ts| ==> ts[i].id != ts[j].id)
    && (forall i :: 0 <= i < |ts| ==> ValidTemplate(ts[i]))
  }

  /** Stored bundles: distinct ids, each valid under the schema. */
  predicate BundlesValid(bs: seq<Bundle>)
  {
    && (forall i, j :: 0 <= i < j < |bs| ==> bs[i].id != bs[j].id)
    && (forall i :: 0 <= i < |bs| ==> ValidBundle(bs[i]))
  }

  /** Saving a valid template under a fresh id keeps the templates valid. */
  lemma TemplatesAppend(ts: seq<Template>, t: Template)
    requires TemplatesValid(ts) && ValidTemplate(t) && TemplateById(ts, t.id).None?
    ensures TemplatesValid(ts + [t])
  {
    assert forall i :: 0 <= i < |ts| ==> ts[i] in ts && (ts + [t])[i] == ts[i];
  }

  /** Saving a valid bundle under a fresh id keeps the bundles valid. */
  lemma BundlesAppend(bs: seq<Bundle>, b: Bundle)
    requires BundlesValid(bs) && ValidBundle(b) && BundleById(bs, b.id).None?
    ensures BundlesValid(bs + [b])
  {
    assert forall i :: 0 <= i < |bs| ==> bs[i] in bs && (bs + [b])[i] == bs[i];
  }

  /** Replacing a template by a valid one with the same id keeps the templates valid. */
  lemma TemplatesReplace(ts: seq<Template>, i: nat, t: Template)
    requires TemplatesValid(ts) && i < |ts| && ValidTemplate(t) && t.id == ts[i].id
    ensures TemplatesValid(ts[i := t])
  {
    assert forall j :: 0 <= j < |ts| ==> ts[i := t][j].id == ts[j].id;
  }

  class Catalog {
    /** Template documents in creation order. */
    var templates: seq<Template>
    /** Bundle documents in creation order. */
    var bundles: seq<Bundle>

    ghost predicate Valid()
      reads this
    {
      TemplatesValid(templates) && BundlesValid(bundles)
    }

    constructor ()
      ensures Valid() && templates == [] && bundles == []
    {
      templates := [];
      bundles := [];
    }

    /** `save` of a new template document. */
    method AddTemplate(t: Template) returns (r: SaveResult)
      requires Valid()
      modifies this
      ensures Valid() && bundles == old(bundles)
      ensures r == (if TemplateErrors(t, true) != [] then Invalid(TemplateErrors(t, true))
                    else if TemplateById(old(templates), t.id).Some? then DuplicateKey
                    else Saved)
      ensures templates == if r == Saved then old(templates) + [t] else old(templates)
    {
      var errs := TemplateErrors(t, true);
      if errs != [] {
        r := Invalid(errs);
      } else if TemplateById(templates, t.id).Some? {
        r := DuplicateKey;
      } else {
        TemplatesAppend(templates, t);
        templates := templates + [t];
        r := Saved;
      }
    }

    /** `save` of a new bundle document. */
    method AddBundle(b: Bundle) returns (r: SaveResult)
      requires Valid()
      modifies this
      ensures Valid() && templates == old(templates)
      ensures r == (if BundleErrors(b) != [] then Invalid(BundleErrors(b))
                    else if BundleById(old(bundles), b.id).Some? then DuplicateKey
                    else Saved)
      ensures bundles == if r == Saved then old(bundles) + [b] else old(bundles)
    {
      var errs := BundleErrors(b);
      if errs != [] {
        r := Invalid(errs);
      } else if BundleById(bundles, b.id).Some? {
        r := DuplicateKey;
      } else {
        BundlesAppend(bundles, b);
        bundles := bundles + [b];
        r := Saved;
      }
    }

    /** `incrementDownloadCount()` on the template with this id: its count goes up by one and
        nothing else in the catalog changes. */
    method IncrementDownloadCount(id: string) returns (found: bool)
      requires Valid()
      modifies this
      ensures Valid() && bundles == old(bundles) && |templates| == |old(templates)|
      ensures found <==> TemplateIndex(old(templates), id).Some?
      ensures !found ==> templates == old(templates)
      ensures found ==> var i := TemplateIndex(old(templates), id).value;
                        templates == old(templates)[i := Incremented(old(templates)[i])]
    {
      var k := TemplateIndex(templates, id);
      found := k.Some?;
      if found {
        var i := k.value;
        var t := templates[i];
        IncrementedValid(t);
        TemplatesReplace(templates, i, Incremented(t));
        templates := templates[i := Incremented(t)];
      }
    }
  }
}
