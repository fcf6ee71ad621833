/** The remote browser, seen through the answers its driver gives. The driver
    is foreign I/O, so one `Page` value stands for everything the driver would
    answer at one moment; a retry loop sees one `Page` per attempt. */
module Browser {
  import opened Failures

  /** Page-level navigation commands. */
  datatype Nav = Get(uri: string) | Back | Forward | Refresh

  /** String-valued properties of an element that the matchers read. */
  datatype Property = TagName | Text | Attribute(name: string) | CssProperty(name: string)

  /** Commands sent to an element. */
  datatype Action = Click | SendKeys(keys: string) | Submit | Clear

  /** A URL after parsing: its path, its fragment and its query as a multi-map. */
  datatype Url = Url(path: string, fragment: string, query: map<string, seq<string>>)

  /** The current URL: the driver could not report it, it did not parse, or it parsed. */
  datatype Location = Unreachable(cause: Cause) | Unparsable(cause: Cause) | At(url: Url)

  /** The driver's answers at one moment. */
  datatype Page = Page(
    title: Result<string>,
    location: Location,
    source: Result<string>,
    screenshot: Option<Cause>,
    navigate: Nav -> Option<Cause>,
    find: string -> Result<seq<ElemId>>,
    children: (ElemId, string) -> Result<seq<ElemId>>,
    displayed: ElemId -> Result<bool>,
    enabled: ElemId -> Result<bool>,
    selected: ElemId -> Result<bool>,
    property: (ElemId, Property) -> Result<string>,
    act: (ElemId, Action) -> Option<Cause>)

  /** The longest text an element summary shows. */
  const SummaryText: nat := 25

  /** Text cut to at most 25 bytes. */
  function Clip(text: string): (r: string)
    ensures |r| <= SummaryText && r <= text
    ensures |text| <= SummaryText ==> r == text
    ensures |text| > SummaryText ==> |r| == SummaryText
  {
    if |text| > SummaryText then text[..SummaryText] else text
  }

  /** How an error names its element: `#id` when the element has a non-empty id,
      otherwise `<tag>text</tag>` with the text cut to 25 bytes, and the handle's
      own rendering `shown` when the tag or text cannot be read. */
  function ElementString(element: Option<ElemId>, page: Page, shown: string): (r: string)
    ensures element.None? ==> r == ""
    ensures element.Some? && page.property(element.value, Attribute("id")).Ok?
            && page.property(element.value, Attribute("id")).value != ""
            ==> r == "#" + page.property(element.value, Attribute("id")).value
    ensures element.Some? && !(page.property(element.value, Attribute("id")).Ok?
                               && page.property(element.value, Attribute("id")).value != "") ==>
            var tag := page.property(element.value, TagName);
            var text := page.property(element.value, Text);
            (tag.Fail? || text.Fail? ==> r == shown) &&
            (tag.Ok? && text.Ok? ==> r == "<" + tag.value + ">" + Clip(text.value) + "</" + tag.value + ">")
  {
    match element
    case None => ""
    case Some(el) =>
      var id := page.property(el, Attribute("id"));
      if id.Ok? && id.value != "" then "#" + id.value
      else
        var tag := page.property(el, TagName);
        var text := page.property(el, Text);
        if tag.Fail? || text.Fail? then shown
        else
          var body := Clip(text.value);
          "<" + tag.value + ">" + body + "</" + tag.value + ">"
  }

  /** The summary of an element without an id, whose tag and text can be read:
      it opens with its tag, is at most 25 text bytes longer than the two tags,
      and shows the whole text when the text is short enough. */
  lemma ElementSummaryLaw(id: ElemId, page: Page, shown: string)
    requires !(page.property(id, Attribute("id")).Ok? && page.property(id, Attribute("id")).value != "")
    requires page.property(id, TagName).Ok? && page.property(id, Text).Ok?
    ensures var tag := page.property(id, TagName).value;
            var text := page.property(id, Text).value;
            var r := ElementString(Some(id), page, shown);
            |r| <= 2 * |tag| + 5 + SummaryText
            && r[..|tag| + 2] == "<" + tag + ">"
            && (|text| <= SummaryText ==> r == "<" + tag + ">" + text + "</" + tag + ">")
  {
    var tag := page.property(id, TagName).value;
    var text := page.property(id, Text).value;
    var r := ElementString(Some(id), page, shown);
    var open := "<" + tag + ">";
    assert r == open + (Clip(text) + "</" + tag + ">");
    assert r[..|open|] == open;
  }
}
