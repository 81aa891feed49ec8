/** What the crawler can observe of a loaded Instagram page through Selenium,
    as one immutable snapshot. Every `find_element` that can fail is an
    `Option`; every `find_elements` is a sequence in document order. */
module Page {
  import opened Wrappers

  /** The value of a JSON-LD object's `description` key: a string, or anything
      else (on which `.strip()` raises). */
  datatype LdValue = LdString(text: string) | LdOther

  /** One `<script type="application/ld+json">` body after `json.loads`:
      not JSON at all, JSON that is not an object, or an object whose
      `description` key is present (`Some`) or absent (`None`). */
  datatype LdScript = Unparseable | NotAnObject | LdObject(description: Option<LdValue>)

  /** The tags the readiness ladder waits for. */
  datatype Landmark = MainTag | BodyTag | HtmlTag

  datatype Snapshot = Snapshot(
    /** text of `<title>`; `None` when there is no title element */
    title: Option<string>,
    /** `content` of `meta[property="og:image"]` */
    ogImage: Option<string>,
    /** `content` of `meta[property="og:description"]` */
    ogDescription: Option<string>,
    /** `content` of `meta[name="description"]` */
    metaDescription: Option<string>,
    ldScripts: seq<LdScript>,
    /** the texts of the elements each XPath expression selects, in document order */
    spans: map<string, seq<string>>,
    landmarks: set<Landmark>,
    /** `driver.page_source` */
    source: string)

  /** Python truthiness of an element's text or attribute: present and non-empty. */
  predicate Present(o: Option<string>) {
    o.Some? && o.value != []
  }

  /** `driver.find_elements(By.XPATH, xpath)`, as the element texts. */
  function Elements(p: Snapshot, xpath: string): seq<string> {
    if xpath in p.spans then p.spans[xpath] else []
  }
}
