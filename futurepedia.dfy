/** The Futurepedia spider: the tools listing yields every tool card and the next listing
    page, and each tool page becomes one item. */
module Futurepedia {
  import opened Wrappers
  import opened Text
  import opened Scraped

  const FuturepediaSource: string := "Futurepedia"
  const ToolPrefix: string := "/tool/"

  // ----- parse -----

  /** A listing page: the `href` of each `a[href^="/tool/"]` card, and the next-page link. */
  datatype ToolIndex = ToolIndex(cards: seq<string>, nextPage: Option<string>)

  /** `parse(response)`: a request per card, resolved against `origin` (the scheme and host
      of the listing, which `urljoin` puts before a path starting with "/"), then the next
      listing page if its link is present. */
  function ParseToolIndex(origin: string, index: ToolIndex): (r: seq<Follow>)
    ensures |r| == |index.cards| + (if Truthy(index.nextPage) then 1 else 0)
  {
    Crawl(seq(|index.cards|, i requires 0 <= i < |index.cards| => origin + index.cards[i]), index.nextPage)
  }

  /** Every card is followed, in order, at a tool page of the site; the next page comes last
      and only when its link is present. */
  lemma ToolIndexFollows(origin: string, index: ToolIndex)
    requires forall i :: 0 <= i < |index.cards| ==> StartsWith(index.cards[i], ToolPrefix)
    ensures var r := ParseToolIndex(origin, index);
            && (forall i :: 0 <= i < |index.cards| ==>
                  r[i] == Detail(origin + index.cards[i]) && StartsWith(r[i].url, origin + ToolPrefix))
            && (Truthy(index.nextPage) ==> r[|r| - 1] == NextPage(index.nextPage.value))
            && (forall i :: 0 <= i < |r| && r[i].NextPage? ==> i == |index.cards|)
  {
    forall i | 0 <= i < |index.cards| ensures StartsWith(origin + index.cards[i], origin + ToolPrefix) {
      var h := index.cards[i];
      assert (origin + h)[..|origin + ToolPrefix|] == origin + h[..|ToolPrefix|];
    }
  }

  // ----- parse_tool -----

  /** A tool page as its selectors see it. */
  datatype ToolPage = ToolPage(
    url: string,
    h1: Option<string>,         // h1
    titleTag: Option<string>,   // <title>
    metaDesc: Option<string>,   // meta name="description"
    firstP: Option<string>,     // the first p
    tagTexts: seq<string>,      // a[href^="/ai-tools/"] texts
    proseParts: seq<string>)    // all texts under div.prose

  /** The meta description, else the first paragraph, else nothing. */
  function Description(page: ToolPage): string {
    FirstOf(page.metaDesc, page.firstP, "")
  }

  /** The content before the final strip: the joined prose, or the description when the
      prose has no text. */
  function ToolText(page: ToolPage): string {
    if JoinedText(page.proseParts) != [] then JoinedText(page.proseParts) else Description(page)
  }

  /** `parse_tool(response, now)`, with `now` for `int(time.time())`. */
  function ParseTool(page: ToolPage, now: int): (r: ScrapedItem)
    ensures r.source == FuturepediaSource && r.author.None? && r.publishedTs == now
    ensures r.url == page.url
    ensures r.title == Strip(FirstOf(page.h1, page.titleTag, NoTitle))
    ensures r.tags == CleanParts(page.tagTexts)
    ensures r.content == Strip(ToolText(page))
  {
    var title := FirstOf(page.h1, page.titleTag, NoTitle);
    var tags := CleanParts(page.tagTexts);
    ScrapedItem(FuturepediaSource, Strip(title), None, now, page.url, Strip(ToolText(page)), tags)
  }

  /** The content is the joined prose when any prose part has text, and the stripped
      description when none has. */
  lemma ToolContent(page: ToolPage, now: int)
    ensures var c := ParseTool(page, now).content;
            && ((exists i :: 0 <= i < |page.proseParts| && !IsBlank(page.proseParts[i])) ==>
                  c == JoinedText(page.proseParts))
            && ((forall i :: 0 <= i < |page.proseParts| ==> IsBlank(page.proseParts[i])) ==>
                  c == Strip(Description(page)))
  {
    JoinedTextEmpty(page.proseParts);
    JoinedTextStripped(page.proseParts);
  }

  /** The tags are the non-blank tag texts, stripped; and the title is stripped,
      "(no title)" when neither the heading nor the `<title>` has text. */
  lemma ToolTagsAndTitle(page: ToolPage, now: int)
    ensures var r := ParseTool(page, now);
            && (forall i :: 0 <= i < |r.tags| ==> r.tags[i] != [] && Strip(r.tags[i]) == r.tags[i])
            && (r.tags == [] <==> forall i :: 0 <= i < |page.tagTexts| ==> IsBlank(page.tagTexts[i]))
            && Strip(r.title) == r.title
            && (!Truthy(page.h1) && !Truthy(page.titleTag) ==> r.title == NoTitle)
  {
    CleanPartsClean(page.tagTexts);
    TitleOf(page.h1, page.titleTag);
  }
}
