/** The catalog's template record: its schema rules and defaults, the active/category/search
    queries, and the download counter (`app/models/Template.js`). Prices are integer cents. */
module Templates {
  import opened Common

  /** The nine categories a template may belong to. */
  const Categories: seq<string> := [
    "leaving-a-memory", "birthday-gift", "wedding-memories", "family-memory-book",
    "family-recipe-collection", "life-story-journal", "baby-first-year", "memorial-tribute",
    "school-year-memory"]

  const TitleMax := 100
  const DescriptionMax := 500

  /** One template document, as stored (text fields already trimmed). */
  datatype Template = Template(
    id: string,
    title: string,
    description: string,
    price: int,
    category: string,
    features: seq<string>,
    isActive: bool,
    pdfUrl: string,
    imageUrl: string,
    downloadCount: int)

  /** A template document as received: every field is optional. */
  datatype TemplateBody = TemplateBody(
    title: Option<string>,
    description: Option<string>,
    price: Option<int>,
    category: Option<string>,
    features: Option<seq<string>>,
    isActive: Option<bool>,
    pdfUrl: Option<string>,
    imageUrl: Option<string>,
    downloadCount: Option<int>)

  function OrEmpty(s: Option<string>): string
  {
    if s.Some? then s.value else ""
  }

  /** The document built from a body: text fields trimmed, `isActive` defaulting to true,
      `downloadCount` to 0 and `features` to the empty list. A missing price reads as 0 here;
      `TemplateErrors` is what refuses it. */
  function FromBody(id: string, body: TemplateBody): (t: Template)
    ensures body.isActive.None? ==> t.isActive
    ensures body.isActive.Some? ==> t.isActive == body.isActive.value
    ensures body.downloadCount.None? ==> t.downloadCount == 0
    ensures body.downloadCount.Some? ==> t.downloadCount == body.downloadCount.value
    ensures t.title == Trim(OrEmpty(body.title)) && t.description == Trim(OrEmpty(body.description))
    ensures t.id == id
  {
    Template(
      id,
      Trim(OrEmpty(body.title)),
      Trim(OrEmpty(body.description)),
      if body.price.Some? then body.price.value else 0,
      OrEmpty(body.category),
      if body.features.Some? then seq(|body.features.value|, i requires 0 <= i < |body.features.value| => Trim(body.features.value[i])) else [],
      if body.isActive.Some? then body.isActive.value else true,
      OrEmpty(body.pdfUrl),
      OrEmpty(body.imageUrl),
      if body.downloadCount.Some? then body.downloadCount.value else 0)
  }

  /** The first message of one text path: required (non-empty), then at most `max` characters. */
  function TextPathError(value: string, max: int, required: string, tooLong: string): (r: seq<string>)
    ensures r == [] <==> value != "" && |value| <= max
    ensures |r| <= 1
  {
    if value == "" then [required] else if |value| > max then [tooLong] else []
  }

  /** The messages schema validation reports for `t` (one per failing path, in schema order);
      `priceGiven` says whether the body had a price at all. */
  function TemplateErrors(t: Template, priceGiven: bool): (errs: seq<string>)
    ensures errs == [] <==>
      && t.title != "" && |t.title| <= TitleMax
      && t.description != "" && |t.description| <= DescriptionMax
      && priceGiven && t.price >= 0
      && t.category in Categories
      && t.pdfUrl != "" && t.imageUrl != ""
  {
    TextPathError(t.title, TitleMax, "Title is required", "Title cannot be more than 100 characters")
    + TextPathError(t.description, DescriptionMax, "Description is required", "Description cannot be more than 500 characters")
    + (if !priceGiven then ["Price is required"] else if t.price < 0 then ["Price cannot be negative"] else [])
    + (if t.category == "" then ["Category is required"]
       else if t.category !in Categories then [EnumMessage(t.category, "category")] else [])
    + (if t.pdfUrl == "" then ["PDF URL is required"] else [])
    + (if t.imageUrl == "" then ["Image URL is required"] else [])
  }

  /** A template that satisfies the schema. */
  predicate ValidTemplate(t: Template)
  {
    TemplateErrors(t, true) == []
  }

  /** Position of the first template with this id. */
  function TemplateIndex(ts: seq<Template>, id: string): (r: Option<nat>)
    ensures r.Some? ==> r.value < |ts| && ts[r.value].id == id
    ensures r.None? ==> forall i :: 0 <= i < |ts| ==> ts[i].id != id
  {
    Find(ts, (t: Template) => t.id == id)
  }

  /** The first template with this id (`findById`). */
  function TemplateById(ts: seq<Template>, id: string): (r: Option<Template>)
    ensures r.Some? ==> r.value in ts && r.value.id == id
    ensures r.None? ==> forall t :: t in ts ==> t.id != id
  {
    match TemplateIndex(ts, id)
    case None => None
    case Some(i) => Some(ts[i])
  }

  /** `getActiveTemplates`: exactly the active templates, newest first. */
  function GetActiveTemplates(ts: seq<Template>): (r: seq<Template>)
    ensures r == Reverse(Filter(ts, (t: Template) => t.isActive))
    ensures forall t :: t in r <==> t in ts && t.isActive
  {
    NewestFirst(ts, (t: Template) => t.isActive)
  }

  /** `getByCategory`: exactly the active templates of one category, newest first. */
  function GetByCategory(ts: seq<Template>, category: string): (r: seq<Template>)
    ensures r == Reverse(Filter(ts, (t: Template) => t.isActive && t.category == category))
    ensures forall t :: t in r <==> t in ts && t.isActive && t.category == category
  {
    NewestFirst(ts, (t: Template) => t.isActive && t.category == category)
  }

  /** `search`: the active templates whose title, description or category the query matches,
      newest first. `matches(field, query)` stands for the case-insensitive pattern match. */
  function Search(ts: seq<Template>, query: string, matches: (string, string) -> bool): (r: seq<Template>)
    ensures r == Reverse(Filter(ts, (t: Template) => t.isActive
      && (matches(t.title, query) || matches(t.description, query) || matches(t.category, query))))
    ensures forall t :: t in r <==>
      (t in ts && t.isActive && (matches(t.title, query) || matches(t.description, query) || matches(t.category, query)))
  {
    NewestFirst(ts, (t: Template) => t.isActive
      && (matches(t.title, query) || matches(t.description, query) || matches(t.category, query)))
  }

  /** The template after `incrementDownloadCount()`. */
  function Incremented(t: Template): (r: Template)
    ensures r.downloadCount == t.downloadCount + 1
    ensures r.(downloadCount := t.downloadCount) == t
  {
    t.(downloadCount := t.downloadCount + 1)
  }

  /** Counting a download keeps a template valid. */
  lemma IncrementedValid(t: Template)
    requires ValidTemplate(t)
    ensures ValidTemplate(Incremented(t))
  {
  }
}
