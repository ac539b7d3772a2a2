/**
 * The HTML categoriser: a file's lower-cased stem is tested first, and only
 * when no filename rule applies is the lower-cased content inspected. Each of
 * the five categories has a fixed folder under "html/".
 */
module HtmlCategories {
  import opened Wrappers
  import opened Text

  datatype HtmlCategory = Index | Template | Component | Page | Unknown

  /** The folder, under "html/", that holds the files of a category: always one non-empty path segment. */
  function FolderName(c: HtmlCategory): (folder: string)
    ensures folder != [] && '/' !in folder
  {
    match c
    case Index => "index"
    case Template => "templates"
    case Component => "components"
    case Page => "pages"
    case Unknown => "other"
  }

  /** The category whose folder is `folder`, if any: the inverse of FolderName. */
  function CategoryOfFolder(folder: string): Option<HtmlCategory> {
    if folder == "index" then Some(Index)
    else if folder == "templates" then Some(Template)
    else if folder == "components" then Some(Component)
    else if folder == "pages" then Some(Page)
    else if folder == "other" then Some(Unknown)
    else None
  }

  /** Every category is recovered from its folder, and a recognised folder is that of its category. */
  lemma FolderNameRoundTrip(c: HtmlCategory, folder: string)
    ensures CategoryOfFolder(FolderName(c)) == Some(c)
    ensures CategoryOfFolder(folder) == Some(c) ==> FolderName(c) == folder
  {
  }

  /** Distinct categories never share a folder. */
  lemma FolderNameInjective(c: HtmlCategory, d: HtmlCategory)
    ensures FolderName(c) == FolderName(d) <==> c == d
  {
    FolderNameRoundTrip(c, FolderName(d));
  }

  /** The lower-cased stems that name an index page. */
  predicate IsIndexName(name: string) {
    name == "index" || name == "home" || name == "main"
  }

  /** Text that mentions a template or a layout. */
  predicate MentionsTemplate(text: string) {
    Contains(text, "template") || Contains(text, "layout")
  }

  /** A lower-cased stem that names a component. */
  predicate IsComponentName(name: string) {
    Contains(name, "component") || StartsWith(name, "comp_")
  }

  /** Content that mentions a component or a widget. */
  predicate MentionsComponent(text: string) {
    Contains(text, "component") || Contains(text, "widget")
  }

  /** Content that carries both an <html and a <head tag opening. */
  predicate LooksLikePage(text: string) {
    Contains(text, "<html") && Contains(text, "<head")
  }

  /** The category a lower-cased stem decides by itself, or None when the content must decide. */
  function CategoryOfName(name: string): (r: Option<HtmlCategory>)
    ensures r == Some(Index) <==> IsIndexName(name)
    ensures r != Some(Page) && r != Some(Unknown)
  {
    if IsIndexName(name) then Some(Index)
    else if MentionsTemplate(name) then Some(Template)
    else if IsComponentName(name) then Some(Component)
    else None
  }

  /** The category of an HTML file judged by its content alone; unreadable content is given as "". */
  function DetectByContent(content: string): (c: HtmlCategory)
    ensures c != Index
  {
    var text := ToLower(content);
    if MentionsTemplate(text) then Template
    else if MentionsComponent(text) then Component
    else if LooksLikePage(text) then Page
    else Unknown
  }

  /**
   * The category of an HTML file with the given stem (None when the path has
   * none or it is not text) and content: the stem rules first, then the content.
   */
  function Detect(stem: Option<string>, content: string): (c: HtmlCategory)
    ensures c == Index <==> stem.Some? && IsIndexName(ToLower(stem.value))
  {
    var name := ToLower(stem.GetOr(""));
    match CategoryOfName(name)
    case Some(c) => c
    case None => DetectByContent(content)
  }

  /** A stem that lower-cases to "index", "home" or "main" is an index page, whatever the content. */
  lemma IndexNameWins(stem: string, content: string)
    requires IsIndexName(ToLower(stem))
    ensures Detect(Some(stem), content) == Index
  {
  }

  /** Only the stem rules give Index: an index page always has an index stem. */
  lemma IndexOnlyFromName(stem: Option<string>, content: string)
    requires Detect(stem, content) == Index
    ensures stem.Some? && IsIndexName(ToLower(stem.value))
  {
  }

  /**
   * The filename rules take precedence: once the stem names a template (and is
   * not an index name) the file is a template, and once it names a component
   * (and neither earlier rule applies) it is a component, whatever the content.
   */
  lemma NameRulesPrecedeContent(stem: string, content: string)
    ensures var name := ToLower(stem);
      && (!IsIndexName(name) && MentionsTemplate(name) ==> Detect(Some(stem), content) == Template)
      && (!IsIndexName(name) && !MentionsTemplate(name) && IsComponentName(name) ==>
          Detect(Some(stem), content) == Component)
  {
  }

  /** The content is consulted exactly when no filename rule applies. */
  lemma ContentDecidesOnlyWithoutNameRule(stem: Option<string>, content: string, other: string)
    ensures CategoryOfName(ToLower(stem.GetOr(""))).None? ==> Detect(stem, content) == DetectByContent(content)
    ensures CategoryOfName(ToLower(stem.GetOr(""))).Some? ==> Detect(stem, content) == Detect(stem, other)
  {
  }

  /**
   * The content rules are tried in order and the first match wins: template or
   * layout, then component or widget, then <html together with <head, else Unknown.
   */
  lemma ContentRulesInOrder(content: string)
    ensures var text := ToLower(content);
      && (DetectByContent(content) == Template <==> MentionsTemplate(text))
      && (DetectByContent(content) == Component <==> !MentionsTemplate(text) && MentionsComponent(text))
      && (DetectByContent(content) == Page <==>
          !MentionsTemplate(text) && !MentionsComponent(text) && LooksLikePage(text))
      && (DetectByContent(content) == Unknown <==>
          !MentionsTemplate(text) && !MentionsComponent(text) && !LooksLikePage(text))
  {
  }

  /** Content is compared without regard to ASCII case. */
  lemma DetectByContentIgnoresCase(content: string)
    ensures DetectByContent(ToLower(content)) == DetectByContent(content)
  {
    ToLowerIdempotent(content);
  }

  /** Empty (or unreadable) content under a stem no filename rule matches yields Unknown. */
  lemma EmptyContentIsUnknown(stem: Option<string>)
    requires CategoryOfName(ToLower(stem.GetOr(""))).None?
    ensures Detect(stem, "") == Unknown
  {
  }

  /** A file without a usable stem and without content is Unknown. */
  lemma NoStemNoContentIsUnknown()
    ensures Detect(None, "") == Unknown
  {
  }
}
