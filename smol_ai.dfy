/** The smol.ai spider: the index page's issue links are followed, and each issue page becomes
    an item whose content has the site's navigation phrases and blank lines taken out. */
module SmolAi {
  import opened Wrappers
  import opened Text
  import opened Sorting
  import opened Scraped

  const SmolSource: string := "smol.ai"
  const IssuesPrefix: string := "/issues/"

  /** The navigation and footer phrases removed from the content, in the order they are
      removed. */
  const NavPhrases: seq<string> :=
    ["Back to issues", "Skip to Main", "subscribe", "tags", "Search (Cmd+K)", "See all issues",
     "Back to top", "© 2025 • AINews"]

  // ----- parse -----

  /** One `a.block.rounded-lg.border` of the index page: its `href`, the `datetime` of its
      `<time>` and the text of its headline. */
  datatype IssueLink = IssueLink(href: Option<string>, date: Option<string>, title: Option<string>)

  /** A request for an issue page, with the date and title it carries in `meta`. */
  datatype IssueRequest = IssueRequest(url: string, date: Option<string>, title: Option<string>)

  /** The links `parse` follows: those with an `href` under "/issues/". */
  predicate Followed(link: IssueLink) {
    link.href.Some? && StartsWith(link.href.value, IssuesPrefix)
  }

  /** The request for a followed link; `origin` is the scheme and host of the index page, which
      `urljoin` puts before a path that starts with "/". */
  function RequestFor(origin: string, link: IssueLink): IssueRequest
    requires Followed(link)
  {
    IssueRequest(origin + link.href.value, link.date, link.title)
  }

  function RequestsFor(origin: string, links: seq<IssueLink>): (r: seq<IssueRequest>)
    requires forall i :: 0 <= i < |links| ==> Followed(links[i])
    ensures |r| == |links| && forall i :: 0 <= i < |links| ==> r[i] == RequestFor(origin, links[i])
  {
    seq(|links|, i requires 0 <= i < |links| => RequestFor(origin, links[i]))
  }

  lemma FollowedOnly(links: seq<IssueLink>)
    ensures forall i :: 0 <= i < |Filter(links, Followed)| ==> Followed(Filter(links, Followed)[i])
  {
    FilterMembers(links, Followed);
    forall i | 0 <= i < |Filter(links, Followed)| ensures Followed(Filter(links, Followed)[i]) {
      assert Filter(links, Followed)[i] in Filter(links, Followed);
    }
  }

  /** `parse(response)`: the requests for the followed links, in page order. */
  method Parse(origin: string, links: seq<IssueLink>) returns (requests: seq<IssueRequest>)
    ensures (FollowedOnly(links); requests == RequestsFor(origin, Filter(links, Followed)))
  {
    requests := [];
    for i := 0 to |links|
      invariant (FollowedOnly(links[..i]); requests == RequestsFor(origin, Filter(links[..i], Followed)))
    {
      FilterSnoc(links[..i], links[i], Followed);
      assert links[..i + 1] == links[..i] + [links[i]];
      FollowedOnly(links[..i + 1]);
      var link := links[i];
      if link.href.None? || link.href.value == [] || !StartsWith(link.href.value, IssuesPrefix) {
        continue;
      }
      requests := requests + [IssueRequest(origin + link.href.value, link.date, link.title)];
    }
    assert links[..|links|] == links;
  }

  /** Every request is for an issue page of the site, one per followed link, carrying the
      link's date and title; a page without such links yields none. */
  lemma {:induction false} ParsedRequests(origin: string, links: seq<IssueLink>)
    ensures (FollowedOnly(links);
             var r := RequestsFor(origin, Filter(links, Followed));
             && (forall i :: 0 <= i < |r| ==> StartsWith(r[i].url, origin + IssuesPrefix))
             && ((forall i :: 0 <= i < |links| ==> !Followed(links[i])) ==> r == []))
  {
    FollowedOnly(links);
    var kept := Filter(links, Followed);
    forall i | 0 <= i < |kept| ensures StartsWith(origin + kept[i].href.value, origin + IssuesPrefix) {
      var h := kept[i].href.value;
      assert (origin + h)[..|origin + IssuesPrefix|] == origin + h[..|IssuesPrefix|];
    }
    if forall i :: 0 <= i < |links| ==> !Followed(links[i]) {
      FilterNone(links, Followed);
    }
  }

  // ----- parse_issue -----

  /** An issue page as its selectors see it: the text nodes of each `main` element, of each
      `div.prose, div.markdown-body, article`, of the whole page, and of each `code`. */
  datatype IssuePage = IssuePage(
    url: string,
    mainTexts: seq<seq<string>>,
    fallbackTexts: seq<seq<string>>,
    pageTexts: seq<string>,
    codeTexts: seq<string>)

  /** The text the content is cut from: the first `main` element, else the first fallback
      element, else the whole page, joined by newlines and stripped. */
  function RawContent(page: IssuePage): string {
    if page.mainTexts != [] then Strip(Join("\n", page.mainTexts[0]))
    else if page.fallbackTexts != [] then Strip(Join("\n", page.fallbackTexts[0]))
    else Strip(Join("\n", page.pageTexts))
  }

  /** Each phrase removed in turn, every occurrence, left to right. */
  function RemovePhrases(s: string, phrases: seq<string>): string
    requires forall i :: 0 <= i < |phrases| ==> |phrases[i]| > 0
  {
    if phrases == [] then s
    else ReplaceAll(RemovePhrases(s, phrases[..|phrases| - 1]), phrases[|phrases| - 1], "")
  }

  /** No line feed follows another. */
  predicate NoBlankLine(s: string) {
    forall i :: 0 <= i < |s| - 1 ==> !(s[i] == '\n' && s[i + 1] == '\n')
  }

  /** `re.sub(r'\n+', '\n', s)`: each run of line feeds becomes one. */
  function CollapseNewlines(s: string): (r: string)
    ensures NoBlankLine(r)
    ensures s != [] ==> r != [] && r[0] == s[0]
    ensures NoBlankLine(s) ==> r == s
    ensures forall c :: c in r ==> c in s
  {
    if s == [] then []
    else if |s| > 1 && s[0] == '\n' && s[1] == '\n' then
      var r := CollapseNewlines(s[1..]);
      assert forall c :: c in s[1..] ==> c in s;
      r
    else
      var rest := CollapseNewlines(s[1..]);
      var r := [s[0]] + rest;
      assert forall i :: 1 <= i < |r| ==> r[i] == rest[i - 1];
      assert forall c :: c in s[1..] ==> c in s;
      assert NoBlankLine(s) ==> NoBlankLine(s[1..]) by {
        if NoBlankLine(s) {
          forall i | 0 <= i < |s[1..]| - 1 ensures !(s[1..][i] == '\n' && s[1..][i + 1] == '\n') {
            assert s[1..][i] == s[i + 1] && s[1..][i + 1] == s[i + 2];
          }
        }
      }
      r
  }

  /** The content of an issue: the phrases removed, line-feed runs collapsed, stripped. */
  function CleanedContent(raw: string): string {
    Strip(CollapseNewlines(RemovePhrases(raw, NavPhrases)))
  }

  /** A part of a text without blank lines has none either. */
  lemma NoBlankLineSlice(s: string, a: nat, b: nat)
    requires NoBlankLine(s) && a <= b <= |s|
    ensures NoBlankLine(s[a..b])
  {
    forall i | 0 <= i < b - a - 1 ensures !(s[a..b][i] == '\n' && s[a..b][i + 1] == '\n') {
      assert s[a..b][i] == s[a + i] && s[a..b][i + 1] == s[a + i + 1];
    }
  }

  /** Trimming a text without blank lines leaves none. */
  lemma TrimKeepsNoBlankLine(s: string, isSpace: char -> bool)
    requires NoBlankLine(s)
    ensures NoBlankLine(Trim(s, isSpace))
  {
    var a := LeadingCount(s, isSpace);
    NoBlankLineSlice(s, a, a + |Trim(s, isSpace)|);
  }

  /** The cleaned content has no blank line and no surrounding whitespace, so stripping it
      again changes nothing. */
  lemma CleanedContentShape(raw: string)
    ensures NoBlankLine(CleanedContent(raw))
    ensures Strip(CleanedContent(raw)) == CleanedContent(raw)
  {
    var collapsed := CollapseNewlines(RemovePhrases(raw, NavPhrases));
    TrimKeepsNoBlankLine(collapsed, IsPySpace);
    TrimIdempotent(collapsed, IsPySpace);
  }

  lemma RemovePhrasesSnoc(s: string, phrases: seq<string>, i: nat)
    requires forall j :: 0 <= j < |phrases| ==> |phrases[j]| > 0
    requires i < |phrases|
    ensures RemovePhrases(s, phrases[..i + 1]) == ReplaceAll(RemovePhrases(s, phrases[..i]), phrases[i], "")
  {
    assert phrases[..i + 1][..i] == phrases[..i];
  }

  lemma {:induction false} RemovePhrasesAbsent(s: string, phrases: seq<string>)
    requires forall i :: 0 <= i < |phrases| ==> |phrases[i]| > 0 && !Contains(s, phrases[i])
    ensures RemovePhrases(s, phrases) == s
  {
    if phrases != [] {
      RemovePhrasesAbsent(s, phrases[..|phrases| - 1]);
      ReplaceAllAbsent(s, phrases[|phrases| - 1], "");
    }
  }

  /** Content that is already clean (no navigation phrase, no blank line, nothing to strip)
      is kept as it is. */
  lemma CleanContentKeepsClean(raw: string)
    requires forall i :: 0 <= i < |NavPhrases| ==> !Contains(raw, NavPhrases[i])
    requires NoBlankLine(raw) && Strip(raw) == raw
    ensures CleanedContent(raw) == raw
  {
    RemovePhrasesAbsent(raw, NavPhrases);
  }

  /** The cleaning in `parse_issue`: the loop over the phrases, then the collapse and strip. */
  method CleanContent(raw: string) returns (content: string)
    ensures content == CleanedContent(raw)
  {
    content := raw;
    for i := 0 to |NavPhrases|
      invariant content == RemovePhrases(raw, NavPhrases[..i])
    {
      RemovePhrasesSnoc(raw, NavPhrases, i);
      content := ReplaceAll(content, NavPhrases[i], "");
    }
    assert NavPhrases[..|NavPhrases|] == NavPhrases;
    content := Strip(CollapseNewlines(content));
  }

  /** `parse_issue(response)`: `meta` holds the date and title of the link followed; `isoTs`
      stands for `int(datetime.fromisoformat(text).timestamp())`, with nothing when it raises;
      `now` is `int(time.time())`. */
  method ParseIssue(page: IssuePage, meta: IssueRequest, isoTs: string -> Option<int>, now: int)
    returns (item: ScrapedItem)
    ensures item.source == SmolSource && item.author.None?
    ensures item.url == page.url && item.tags == page.codeTexts
    // A missing or empty title becomes "(no title)"; either way it is stripped.
    ensures item.title == Strip(OrElse(meta.title, NoTitle))
    // The link's date when it reads as a timestamp, else the current time.
    ensures item.publishedTs ==
              if Truthy(meta.date) && isoTs(ReplaceAll(meta.date.value, "Z", "+00:00")).Some?
              then isoTs(ReplaceAll(meta.date.value, "Z", "+00:00")).value
              else now
    ensures item.content == CleanedContent(RawContent(page))
  {
    var title := OrElse(meta.title, NoTitle);
    var ts := now;
    if Truthy(meta.date) {
      var parsed := isoTs(ReplaceAll(meta.date.value, "Z", "+00:00"));
      if parsed.Some? {
        ts := parsed.value;
      }
    }
    var raw: string;
    if page.mainTexts != [] {
      raw := Strip(Join("\n", page.mainTexts[0]));
    } else if page.fallbackTexts != [] {
      raw := Strip(Join("\n", page.fallbackTexts[0]));
    } else {
      raw := Strip(Join("\n", page.pageTexts));
    }
    var content := CleanContent(raw);
    CleanedContentShape(raw);
    item := ScrapedItem(SmolSource, Strip(title), None, ts, page.url, Strip(content), page.codeTexts);
  }
}
