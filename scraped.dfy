/** What the spiders yield, and the text cleaning they share. A spider's HTML selectors are
    not modelled: what each selector returns on a page is an input. */
module Scraped {
  import opened Wrappers
  import opened Text

  /** A yielded item: source, title, author, published_ts, url, content and tags. */
  datatype ScrapedItem = ScrapedItem(
    source: string,
    title: string,
    author: Option<string>,
    publishedTs: int,
    url: string,
    content: string,
    tags: seq<string>)

  const NoTitle: string := "(no title)"

  /** `[strip(p) for p in parts if strip(p)]`. */
  function CleanWith(parts: seq<string>, strip: string -> string): (r: seq<string>)
    ensures |r| <= |parts|
  {
    if parts == [] then []
    else if strip(parts[0]) != [] then [strip(parts[0])] + CleanWith(parts[1..], strip)
    else CleanWith(parts[1..], strip)
  }

  /** `[p.strip() for p in parts if p.strip()]`. */
  function CleanParts(parts: seq<string>): (r: seq<string>)
    ensures |r| <= |parts|
  {
    CleanWith(parts, Strip)
  }

  /** What the proofs need of `str.strip()`: stripping twice is stripping once, and only a
      blank text strips to nothing. */
  ghost predicate StripLike(strip: string -> string) {
    forall p :: strip(strip(p)) == strip(p) && (strip(p) == [] <==> IsBlank(p))
  }

  lemma StripIsStripLike()
    ensures StripLike(Strip)
  {
    forall p ensures Strip(Strip(p)) == Strip(p) && (Strip(p) == [] <==> IsBlank(p)) {
      TrimIdempotent(p, IsPySpace);
    }
  }

  lemma {:induction false} CleanWithClean(parts: seq<string>, strip: string -> string)
    requires StripLike(strip)
    ensures var r := CleanWith(parts, strip);
            && (forall i :: 0 <= i < |r| ==> r[i] != [] && strip(r[i]) == r[i])
            && (r == [] <==> forall i :: 0 <= i < |parts| ==> IsBlank(parts[i]))
  {
    if parts != [] {
      CleanWithClean(parts[1..], strip);
      assert forall i :: 1 <= i < |parts| ==> parts[i] == parts[1..][i - 1];
    }
  }

  /** Every cleaned part is non-empty and stripped, and there are none exactly when every
      part is blank. */
  lemma CleanPartsClean(parts: seq<string>)
    ensures var r := CleanParts(parts);
            && (forall i :: 0 <= i < |r| ==> r[i] != [] && Strip(r[i]) == r[i])
            && (r == [] <==> forall i :: 0 <= i < |parts| ==> IsBlank(parts[i]))
  {
    StripIsStripLike();
    CleanWithClean(parts, Strip);
  }

  lemma {:induction false} CleanWithAppend(a: seq<string>, b: seq<string>, strip: string -> string)
    ensures CleanWith(a + b, strip) == CleanWith(a, strip) + CleanWith(b, strip)
  {
    if a != [] {
      assert (a + b)[0] == a[0] && (a + b)[1..] == a[1..] + b;
      CleanWithAppend(a[1..], b, strip);
    } else {
      assert a + b == b;
    }
  }

  /** The cleaned parts keep their order: cleaning parts one after another is cleaning them
      together. */
  lemma CleanPartsAppend(a: seq<string>, b: seq<string>)
    ensures CleanParts(a + b) == CleanParts(a) + CleanParts(b)
  {
    CleanWithAppend(a, b, Strip);
  }

  /** `'\n'.join([p.strip() for p in parts if p.strip()])`. */
  function JoinedText(parts: seq<string>): string {
    Join("\n", CleanParts(parts))
  }

  /** The joined text is empty exactly when every part is blank. */
  lemma JoinedTextEmpty(parts: seq<string>)
    ensures JoinedText(parts) == [] <==> forall i :: 0 <= i < |parts| ==> IsBlank(parts[i])
  {
    var c := CleanParts(parts);
    CleanPartsClean(parts);
    if c != [] {
      JoinHead(c);
    }
  }

  /** A join starts with its first part. */
  lemma JoinHead(parts: seq<string>)
    requires parts != []
    ensures |Join("\n", parts)| >= |parts[0]|
  {
  }

  /** A join of non-empty parts starts with the first part's first character and ends with
      the last part's last character. */
  lemma {:induction false} JoinEnds(sep: string, parts: seq<string>)
    requires parts != [] && forall i :: 0 <= i < |parts| ==> parts[i] != []
    ensures var j := Join(sep, parts);
            && j != [] && j[0] == parts[0][0]
            && j[|j| - 1] == parts[|parts| - 1][|parts[|parts| - 1]| - 1]
  {
    if |parts| >= 2 {
      JoinEnds(sep, parts[1..]);
      assert parts[1..][|parts[1..]| - 1] == parts[|parts| - 1];
    }
  }

  /** The joined text has no surrounding whitespace. */
  lemma JoinedTextStripped(parts: seq<string>)
    ensures Strip(JoinedText(parts)) == JoinedText(parts)
  {
    var c := CleanParts(parts);
    CleanPartsClean(parts);
    if c != [] {
      JoinEnds("\n", c);
      assert !IsPySpace(c[0][0]) && !IsPySpace(c[|c| - 1][|c[|c| - 1]| - 1]) by {
        assert Strip(c[0]) == c[0] && Strip(c[|c| - 1]) == c[|c| - 1];
      }
    }
    TrimUnchanged(JoinedText(parts), IsPySpace);
  }

  /** The placeholder title has no surrounding whitespace. */
  lemma NoTitleStripped()
    ensures Strip(NoTitle) == NoTitle
  {
    assert NoTitle[0] == '(' && NoTitle[|NoTitle| - 1] == ')';
    TrimUnchanged(NoTitle, IsPySpace);
  }

  /** A title chosen from two headings and stripped is stripped, and it is "(no title)" when
      neither heading has text. */
  lemma TitleOf(a: Option<string>, b: Option<string>)
    ensures var t := Strip(FirstOf(a, b, NoTitle));
            && Strip(t) == t
            && (!Truthy(a) && !Truthy(b) ==> t == NoTitle)
  {
    TrimIdempotent(FirstOf(a, b, NoTitle), IsPySpace);
    NoTitleStripped();
  }

  /** A request a listing page yields: a detail page, parsed into an item, or the next listing
      page, parsed like this one. */
  datatype Follow = Detail(url: string) | NextPage(url: string)

  /** The detail pages in order, then the next listing page when there is one. */
  function Crawl(details: seq<string>, next: Option<string>): (r: seq<Follow>)
    ensures |r| == |details| + (if Truthy(next) then 1 else 0)
    ensures forall i :: 0 <= i < |details| ==> r[i] == Detail(details[i])
    ensures Truthy(next) ==> r[|details|] == NextPage(next.value)
  {
    seq(|details|, i requires 0 <= i < |details| => Detail(details[i]))
      + (if Truthy(next) then [NextPage(next.value)] else [])
  }

  /** Python's `a or b` on two optional strings and a default: the first truthy one. */
  function FirstOf(a: Option<string>, b: Option<string>, default: string): (r: string)
    ensures Truthy(a) ==> r == a.value
    ensures !Truthy(a) && Truthy(b) ==> r == b.value
    ensures !Truthy(a) && !Truthy(b) ==> r == default
  {
    OrElse(a, OrElse(b, default))
  }
}
