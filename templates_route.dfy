/** The templates endpoint (`app/api/templates/route.js`): listing active templates by search,
    by category or all, and creating a template. The search pattern match is a parameter. */
module TemplatesApi {
  import opened Common
  import opened Templates
  import opened CatalogStore

  /** `GET /api/templates?search=…&category=…`: a search term wins over a category; with neither,
      every active template. */
  function Get(ts: seq<Template>, category: Option<string>, search: Option<string>,
               matches: (string, string) -> bool): (r: seq<Template>)
    ensures Truthy(search) ==> r == Search(ts, search.value, matches)
    ensures !Truthy(search) && Truthy(category) ==> r == GetByCategory(ts, category.value)
    ensures !Truthy(search) && !Truthy(category) ==> r == GetActiveTemplates(ts)
  {
    if Truthy(search) then Search(ts, search.value, matches)
    else if Truthy(category) then GetByCategory(ts, category.value)
    else GetActiveTemplates(ts)
  }

  /** Whatever the parameters, a listing shows stored active templates only; with no parameter
      it shows every one of them. */
  lemma EveryListingIsActive(ts: seq<Template>, category: Option<string>, search: Option<string>,
                             matches: (string, string) -> bool)
    ensures forall t :: t in Get(ts, category, search, matches) ==> t in ts && t.isActive
    ensures !Truthy(search) && !Truthy(category) ==>
              forall t :: t in Get(ts, category, search, matches) <==> t in ts && t.isActive
  {
  }

  /** A search term makes the category irrelevant: two requests with the same term and any two
      categories list the same templates. */
  lemma SearchWinsOverCategory(ts: seq<Template>, c1: Option<string>, c2: Option<string>, search: Option<string>,
                               matches: (string, string) -> bool)
    requires Truthy(search)
    ensures Get(ts, c1, search, matches) == Get(ts, c2, search, matches)
  {
  }

  /** The body names a title, a description, a non-zero price and a category. */
  predicate TemplateFieldsPresent(body: TemplateBody)
  {
    Truthy(body.title) && Truthy(body.description) && body.price.Some? && body.price.value != 0 && Truthy(body.category)
  }

  /** `POST /api/templates`; `templateId` is the new document's id. */
  method Post(catalog: Catalog, body: TemplateBody, templateId: string) returns (reply: Reply<Template>)
    requires catalog.Valid()
    modifies catalog
    ensures catalog.Valid() && catalog.bundles == old(catalog.bundles)
    ensures !TemplateFieldsPresent(body) ==>
              reply == Err(400, "Missing required fields") && catalog.templates == old(catalog.templates)
    ensures TemplateFieldsPresent(body) ==>
              var t := FromBody(templateId, body);
              var errs := TemplateErrors(t, true);
              && (errs != [] ==> reply == Err(400, Join(errs, ", ")) && catalog.templates == old(catalog.templates))
              && (errs == [] && TemplateById(old(catalog.templates), templateId).Some? ==>
                    reply == Err(500, "Failed to create template") && catalog.templates == old(catalog.templates))
              && (errs == [] && TemplateById(old(catalog.templates), templateId).None? ==>
                    reply == Ok(201, t) && catalog.templates == old(catalog.templates) + [t])
  {
    if !TemplateFieldsPresent(body) {
      return Err(400, "Missing required fields");
    }
    var t := FromBody(templateId, body);
    var saved := catalog.AddTemplate(t);
    match saved
    case Saved => reply := Ok(201, t);
    case Invalid(errs) => reply := Err(400, Join(errs, ", "));
    case DuplicateKey => reply := Err(500, "Failed to create template");
  }

  /** A title of spaces passes the presence check but not the schema: trimming empties it, and the
      reply reports the missing title first. */
  lemma BlankTitleRefused(body: TemplateBody, templateId: string)
    requires TemplateFieldsPresent(body) && forall i :: 0 <= i < |body.title.value| ==> IsSpace(body.title.value[i])
    ensures TemplateErrors(FromBody(templateId, body), true) != []
    ensures TemplateErrors(FromBody(templateId, body), true)[0] == "Title is required"
  {
    TrimEmpty(body.title.value);
  }

  /** A newly created template is active and has no downloads unless the body says otherwise. */
  lemma CreatedDefaults(body: TemplateBody, templateId: string)
    requires body.isActive.None? && body.downloadCount.None?
    ensures FromBody(templateId, body).isActive && FromBody(templateId, body).downloadCount == 0
  {
  }
}
