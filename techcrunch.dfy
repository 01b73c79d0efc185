/** The TechCrunch spider: tag pages yield their article links and the "Load More" page, and
    each article page becomes one item, or none when its publication time does not parse. */
module TechCrunch {
  import opened Wrappers
  import opened Text
  import opened Scraped

  const TechCrunchSource: string := "TechCrunch"

  // ----- parse -----

  /** A tag page: the `h2 a` link of each `article.post-block` (a block may have none), and
      the `a.load-more` link. */
  datatype TagPage = TagPage(links: seq<Option<string>>, nextPage: Option<string>)

  /** The links that are present and non-empty, in order. */
  function PresentLinks(links: seq<Option<string>>): (r: seq<string>)
    ensures |r| <= |links|
    ensures forall i :: 0 <= i < |r| ==> r[i] != []
  {
    if links == [] then []
    else
      var last := links[|links| - 1];
      PresentLinks(links[..|links| - 1]) + (if Truthy(last) then [last.value] else [])
  }

  /** Exactly the present links are kept: each kept link is one of the page's, and each
      present link of the page is kept. */
  lemma {:induction false} PresentLinksExact(links: seq<Option<string>>)
    ensures forall x :: x in PresentLinks(links) ==> Some(x) in links
    ensures forall i :: 0 <= i < |links| && Truthy(links[i]) ==> links[i].value in PresentLinks(links)
  {
    if links != [] {
      var init := links[..|links| - 1];
      PresentLinksExact(init);
      assert links == init + [links[|links| - 1]];
      forall i | 0 <= i < |links| && Truthy(links[i])
        ensures links[i].value in PresentLinks(links)
      {
        if i < |init| {
          assert links[i] == init[i];
        }
      }
    }
  }

  /** The kept links keep their order: a page read in two halves keeps the links of the
      first half first. */
  lemma {:induction false} PresentLinksAppend(a: seq<Option<string>>, b: seq<Option<string>>)
    ensures PresentLinks(a + b) == PresentLinks(a) + PresentLinks(b)
    decreases |b|
  {
    if b == [] {
      assert a + b == a;
    } else {
      var init := b[..|b| - 1];
      assert (a + b)[..|a + b| - 1] == a + init;
      assert (a + b)[|a + b| - 1] == b[|b| - 1];
      PresentLinksAppend(a, init);
    }
  }

  /** `parse(response)`: an article request per present link, then the next tag page if its
      link is present. */
  function ParseTagPage(page: TagPage): (r: seq<Follow>)
    ensures forall i :: 0 <= i < |r| ==> r[i].url != []
    // The article requests come first; the next page, if any, is the one request after them.
    ensures forall i :: 0 <= i < |r| && r[i].NextPage? ==> i == |r| - 1 && Truthy(page.nextPage)
    ensures Truthy(page.nextPage) ==> r != [] && r[|r| - 1] == NextPage(page.nextPage.value)
  {
    Crawl(PresentLinks(page.links), page.nextPage)
  }

  /** Every article request is for a link of the page, every present link is requested, and
      a block without a link adds nothing. */
  lemma TagPageFollows(page: TagPage)
    ensures forall i :: 0 <= i < |ParseTagPage(page)| && ParseTagPage(page)[i].Detail? ==>
              Some(ParseTagPage(page)[i].url) in page.links
    ensures forall i :: 0 <= i < |page.links| && Truthy(page.links[i]) ==>
              Detail(page.links[i].value) in ParseTagPage(page)
    ensures ParseTagPage(TagPage(page.links + [None], page.nextPage)) == ParseTagPage(page)
  {
    var kept := PresentLinks(page.links);
    var r := ParseTagPage(page);
    PresentLinksExact(page.links);
    forall i | 0 <= i < |r| && r[i].Detail? ensures Some(r[i].url) in page.links {
      assert i < |kept| && r[i].url == kept[i];
      assert kept[i] in kept;
    }
    forall i | 0 <= i < |page.links| && Truthy(page.links[i])
      ensures Detail(page.links[i].value) in r
    {
      var j :| 0 <= j < |kept| && kept[j] == page.links[i].value;
      assert r[j] == Detail(kept[j]);
    }
    assert (page.links + [None])[..|page.links|] == page.links;
  }

  // ----- parse_article -----

  /** An article page as its selectors see it. */
  datatype ArticlePage = ArticlePage(
    url: string,
    titleMain: Option<string>,   // h1.article__title
    h1: Option<string>,          // any h1
    contentParts: seq<string>,   // div.article-content p and li texts
    postParts: seq<string>,      // div.post-content p and li texts
    authorLink: Option<string>,  // a[rel="author"]
    byline: Option<string>,      // .article__byline
    tsMeta: Option<string>,      // meta article:published_time
    tags: seq<string>)           // a[rel="tag"]

  /** `s.rstrip(z)`: every trailing `z` removed. */
  function RStrip(s: string, z: char): (r: string)
    ensures |r| <= |s| && r == s[..|r|]
    ensures r == [] || r[|r| - 1] != z
    ensures forall i :: |r| <= i < |s| ==> s[i] == z
  {
    if s != [] && s[|s| - 1] == z then RStrip(s[..|s| - 1], z) else s
  }

  /** The author link, else the byline; stripped, and nothing when neither is there. */
  function Author(link: Option<string>, byline: Option<string>): (r: Option<string>)
    ensures r.None? <==> !Truthy(link) && !Truthy(byline)
    ensures Truthy(link) ==> r == Some(Strip(link.value))
    ensures !Truthy(link) && Truthy(byline) ==> r == Some(Strip(byline.value))
    ensures r.Some? ==> Strip(r.value) == r.value
  {
    var a := if Truthy(link) then link else byline;
    if Truthy(a) then TrimIdempotent(a.value, IsPySpace); Some(Strip(a.value)) else None
  }

  /** The text parts the content is built from: the article-content ones, or the
      post-content ones when there are none. */
  function ArticleParts(page: ArticlePage): seq<string> {
    if page.contentParts != [] then page.contentParts else page.postParts
  }

  /** `parse_article(response)`: `isoTs` stands for
      `int(datetime.fromisoformat(text).timestamp())`, with nothing when it raises, and `now`
      for `int(time.time())`. A publication time that does not parse ends the callback
      without an item. */
  function ParseArticle(page: ArticlePage, isoTs: string -> Option<int>, now: int): (r: Option<ScrapedItem>)
    ensures r.None? <==> Truthy(page.tsMeta) && isoTs(RStrip(page.tsMeta.value, 'Z')).None?
    ensures r.Some? ==>
              && r.value.source == TechCrunchSource
              && r.value.url == page.url
              && r.value.tags == page.tags
              && r.value.title == Strip(FirstOf(page.titleMain, page.h1, NoTitle))
              && r.value.author == Author(page.authorLink, page.byline)
              && r.value.content == JoinedText(ArticleParts(page))
              && r.value.publishedTs ==
                   if Truthy(page.tsMeta) then isoTs(RStrip(page.tsMeta.value, 'Z')).value else now
  {
    var title := FirstOf(page.titleMain, page.h1, NoTitle);
    var content := JoinedText(ArticleParts(page));
    var author := Author(page.authorLink, page.byline);
    var ts := if Truthy(page.tsMeta) then isoTs(RStrip(page.tsMeta.value, 'Z')) else Some(now);
    if ts.None? then None
    else Some(ScrapedItem(TechCrunchSource, Strip(title), author, ts.value, page.url, content, page.tags))
  }

  /** The content of an article: its non-blank parts, stripped, one per line, with no
      surrounding whitespace; empty exactly when every part it is cut from is blank. The
      post-content parts are read only when the article-content selector finds nothing. */
  lemma ArticleContent(page: ArticlePage, isoTs: string -> Option<int>, now: int)
    requires ParseArticle(page, isoTs, now).Some?
    ensures var c := ParseArticle(page, isoTs, now).value.content;
            && Strip(c) == c
            && (c == [] <==> forall i :: 0 <= i < |ArticleParts(page)| ==> IsBlank(ArticleParts(page)[i]))
            && (page.contentParts != [] ==> c == JoinedText(page.contentParts))
            && (page.contentParts == [] ==> c == JoinedText(page.postParts))
  {
    JoinedTextStripped(ArticleParts(page));
    JoinedTextEmpty(ArticleParts(page));
  }

  /** The emitted title is stripped, and it is "(no title)" when neither heading has text. */
  lemma ArticleTitle(page: ArticlePage, isoTs: string -> Option<int>, now: int)
    requires ParseArticle(page, isoTs, now).Some?
    ensures var t := ParseArticle(page, isoTs, now).value.title;
            && Strip(t) == t
            && (!Truthy(page.titleMain) && !Truthy(page.h1) ==> t == NoTitle)
  {
    TitleOf(page.titleMain, page.h1);
  }
}
