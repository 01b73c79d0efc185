/** The article record handed between retrieval, ranking and summarising, and the
    `defaultdict(list)` grouping by source that several of those steps share. */
module Articles {
  import opened Wrappers
  import opened Sorting

  /** One article as a dictionary with the keys source, title, content, timestamp, url, author
      and, for retrieval results, similarity. */
  datatype Article = Article(
    source: string,
    title: string,
    content: string,
    timestamp: int,
    url: string,
    author: Option<string>,
    similarity: Option<real>)

  /** Sort key `x["timestamp"]`. */
  function TsKey(a: Article): real {
    a.timestamp as real
  }

  /** Sort key `x["similarity"]` (only used when the similarity is present). */
  function SimKey(a: Article): real {
    a.similarity.GetOr(0.0)
  }

  function FromSource(src: string): Article -> bool {
    (a: Article) => a.source == src
  }

  /** The articles of one source, in input order: the list `source_groups[src]`. */
  function OfSource(xs: seq<Article>, src: string): seq<Article> {
    Filter(xs, FromSource(src))
  }

  function InSources(order: seq<string>): Article -> bool {
    (a: Article) => a.source in order
  }

  /** The keys of `source_groups` in dictionary order: each source once, by first appearance. */
  function Sources(xs: seq<Article>): (r: seq<string>)
    ensures Distinct(r)
  {
    if xs == [] then []
    else
      var p := Sources(xs[..|xs| - 1]);
      var s := xs[|xs| - 1].source;
      if s in p then p else p + [s]
  }

  /** Appending an article lists its source at the end unless it is listed already. */
  lemma SourcesSnoc(xs: seq<Article>, a: Article)
    ensures Sources(xs + [a]) == if a.source in Sources(xs) then Sources(xs) else Sources(xs) + [a.source]
  {
    assert (xs + [a])[..|xs|] == xs;
  }

  /** Appending an article appends it to its own source's list only. */
  lemma OfSourceSnoc(xs: seq<Article>, a: Article, src: string)
    ensures OfSource(xs + [a], src) == OfSource(xs, src) + (if a.source == src then [a] else [])
  {
    FilterConcat(xs, [a], FromSource(src));
  }

  /** The listed sources are exactly the sources that have articles. */
  lemma {:induction false} SourcesMembers(xs: seq<Article>, src: string)
    ensures src in Sources(xs) ==> OfSource(xs, src) != []
    ensures OfSource(xs, src) != [] ==> src in Sources(xs)
  {
    if xs != [] {
      var init, last := xs[..|xs| - 1], xs[|xs| - 1];
      assert xs == init + [last];
      SourcesMembers(init, src);
      OfSourceSnoc(init, last, src);
    }
  }

  /** Every article of `xs` has its source among the groups. */
  lemma ArticleSourceListed(xs: seq<Article>, a: Article)
    requires a in xs
    ensures a.source in Sources(xs)
  {
    FilterMembers(xs, FromSource(a.source));
    SourcesMembers(xs, a.source);
  }

  /** All articles of one source sit next to each other. */
  predicate Contiguous(r: seq<Article>) {
    forall i, j, k :: 0 <= i < j < k < |r| && r[i].source == r[k].source ==> r[j].source == r[i].source
  }

  /** The groups named by `order`, in that order, each transformed by `f`: the result of a
      loop `for source in order: out.extend(f(source_groups[source]))`. */
  function ConcatGroups(order: seq<string>, xs: seq<Article>, f: seq<Article> -> seq<Article>): seq<Article> {
    if order == [] then []
    else ConcatGroups(order[..|order| - 1], xs, f) + f(OfSource(xs, order[|order| - 1]))
  }

  /** `f` keeps some of a group's articles (a slice, say) and adds none. */
  ghost predicate Shrinks(f: seq<Article> -> seq<Article>) {
    forall g :: multiset(f(g)) <= multiset(g)
  }

  /** `f` reorders a group (a sort, say). */
  ghost predicate Permutes(f: seq<Article> -> seq<Article>) {
    forall g :: multiset(f(g)) == multiset(g)
  }

  /** A group's articles all share its source. */
  lemma GroupMembers(xs: seq<Article>, src: string, f: seq<Article> -> seq<Article>)
    requires Shrinks(f)
    ensures forall a :: a in f(OfSource(xs, src)) ==> a in xs && a.source == src
  {
    FilterMembers(xs, FromSource(src));
    forall a | a in f(OfSource(xs, src)) ensures a in xs && a.source == src {
      assert multiset(f(OfSource(xs, src))) <= multiset(OfSource(xs, src));
      assert a in multiset(OfSource(xs, src));
    }
  }

  lemma {:induction false} ConcatGroupsMembers(order: seq<string>, xs: seq<Article>, f: seq<Article> -> seq<Article>)
    requires Shrinks(f)
    ensures forall a :: a in ConcatGroups(order, xs, f) ==> a in xs && a.source in order
  {
    if order != [] {
      var init, last := order[..|order| - 1], order[|order| - 1];
      ConcatGroupsMembers(init, xs, f);
      GroupMembers(xs, last, f);
      InitLast(order);
    }
  }

  /** Groups of distinct sources never interleave. */
  lemma {:induction false} ConcatGroupsContiguous(order: seq<string>, xs: seq<Article>, f: seq<Article> -> seq<Article>)
    requires Distinct(order) && Shrinks(f)
    ensures Contiguous(ConcatGroups(order, xs, f))
  {
    if order != [] {
      var init, last := order[..|order| - 1], order[|order| - 1];
      var e := ConcatGroups(init, xs, f);
      var g := f(OfSource(xs, last));
      var r := e + g;
      ConcatGroupsContiguous(init, xs, f);
      ConcatGroupsMembers(init, xs, f);
      GroupMembers(xs, last, f);
      DistinctLast(order);
      forall i, j, k | 0 <= i < j < k < |r|
        ensures r[i].source == r[k].source ==> r[j].source == r[i].source
      {
        if k < |e| {
          assert r[i] == e[i] && r[j] == e[j] && r[k] == e[k];
        } else if i >= |e| {
          assert r[i] == g[i - |e|] && r[j] == g[j - |e|] && r[k] == g[k - |e|];
        } else {
          assert r[i] == e[i] && r[k] == g[k - |e|];
          assert e[i] in e && g[k - |e|] in g;
        }
      }
    }
  }

  /** The last element of a sequence without repeats does not occur before it. */
  lemma DistinctLast<T>(order: seq<T>)
    requires Distinct(order) && order != []
    ensures order[|order| - 1] !in order[..|order| - 1]
  {
    var init := order[..|order| - 1];
    assert forall m :: 0 <= m < |init| ==> init[m] == order[m];
  }

  /** Picking one source out of one transformed group gives the whole group or nothing. */
  lemma GroupOfSource(xs: seq<Article>, last: string, f: seq<Article> -> seq<Article>, src: string)
    requires Shrinks(f)
    ensures OfSource(f(OfSource(xs, last)), src) == if last == src then f(OfSource(xs, src)) else []
  {
    var g := f(OfSource(xs, last));
    GroupMembers(xs, last, f);
    assert forall i :: 0 <= i < |g| ==> g[i] in g;
    if last == src {
      FilterAllPass(g, FromSource(src));
    } else {
      FilterNone(g, FromSource(src));
    }
  }

  /** Picking one source out of the concatenation gives that source's transformed group. */
  lemma {:induction false} ConcatGroupsOfSource(order: seq<string>, xs: seq<Article>, f: seq<Article> -> seq<Article>, src: string)
    requires Distinct(order) && Shrinks(f)
    ensures OfSource(ConcatGroups(order, xs, f), src) == if src in order then f(OfSource(xs, src)) else []
  {
    if order != [] {
      var init, last := order[..|order| - 1], order[|order| - 1];
      InitLast(order);
      ConcatGroupsOfSource(init, xs, f, src);
      FilterConcat(ConcatGroups(init, xs, f), f(OfSource(xs, last)), FromSource(src));
      GroupOfSource(xs, last, f, src);
      if last == src {
        DistinctLast(order);
      }
    } else {
      FilterNone([], FromSource(src));
    }
  }

  /** Splitting the articles whose source is in `order + [src]` into two disjoint parts. */
  lemma {:induction false} FilterSourcesSnoc(xs: seq<Article>, order: seq<string>, src: string)
    requires src !in order
    ensures multiset(Filter(xs, InSources(order + [src])))
         == multiset(Filter(xs, InSources(order))) + multiset(OfSource(xs, src))
  {
    if xs != [] {
      FilterSourcesSnoc(xs[1..], order, src);
    }
  }

  /** A concatenation of reordered groups is a permutation of the articles of those sources. */
  lemma {:induction false} ConcatGroupsPermutes(order: seq<string>, xs: seq<Article>, f: seq<Article> -> seq<Article>)
    requires Distinct(order) && Permutes(f)
    ensures multiset(ConcatGroups(order, xs, f)) == multiset(Filter(xs, InSources(order)))
  {
    if order == [] {
      FilterNone(xs, InSources(order));
    } else {
      var init, last := order[..|order| - 1], order[|order| - 1];
      InitLast(order);
      ConcatGroupsPermutes(init, xs, f);
      DistinctLast(order);
      FilterSourcesSnoc(xs, init, last);
    }
  }

  /** A concatenation of shrunk groups takes nothing that was not there. */
  lemma {:induction false} ConcatGroupsShrinks(order: seq<string>, xs: seq<Article>, f: seq<Article> -> seq<Article>)
    requires Distinct(order) && Shrinks(f)
    ensures multiset(ConcatGroups(order, xs, f)) <= multiset(Filter(xs, InSources(order)))
  {
    if order == [] {
      FilterNone(xs, InSources(order));
    } else {
      var init, last := order[..|order| - 1], order[|order| - 1];
      InitLast(order);
      ConcatGroupsShrinks(init, xs, f);
      DistinctLast(order);
      FilterSourcesSnoc(xs, init, last);
    }
  }

  /** When every source of `xs` is in `order`, the filter keeps everything. */
  lemma AllSourcesKept(xs: seq<Article>, order: seq<string>)
    requires forall i :: 0 <= i < |xs| ==> xs[i].source in order
    ensures Filter(xs, InSources(order)) == xs
  {
    FilterAllPass(xs, InSources(order));
  }

  /** Appending a non-empty run of one new source appends that source to the key order. */
  lemma {:induction false} SourcesAppendGroup(e: seq<Article>, g: seq<Article>, src: string)
    requires g != [] && forall i :: 0 <= i < |g| ==> g[i].source == src
    requires src !in Sources(e)
    ensures Sources(e + g) == Sources(e) + [src]
    decreases |g|
  {
    var r := e + g;
    assert r[..|r| - 1] == e + g[..|g| - 1];
    if |g| > 1 {
      SourcesAppendGroup(e, g[..|g| - 1], src);
    } else {
      assert g[..|g| - 1] == [] && e + [] == e;
    }
  }

  /** When no group comes out empty, the concatenation lists its sources in `order`. */
  lemma {:induction false} ConcatGroupsSources(order: seq<string>, xs: seq<Article>, f: seq<Article> -> seq<Article>)
    requires Distinct(order) && Shrinks(f)
    requires forall i :: 0 <= i < |order| ==> f(OfSource(xs, order[i])) != []
    ensures Sources(ConcatGroups(order, xs, f)) == order
  {
    if order != [] {
      var init, last := order[..|order| - 1], order[|order| - 1];
      InitLast(order);
      var e := ConcatGroups(init, xs, f);
      var g := f(OfSource(xs, last));
      assert forall i :: 0 <= i < |init| ==> init[i] == order[i];
      ConcatGroupsSources(init, xs, f);
      DistinctLast(order);
      GroupMembers(xs, last, f);
      assert forall i :: 0 <= i < |g| ==> g[i] in g;
      SourcesAppendGroup(e, g, last);
    }
  }

  /** Groups that agree give the same concatenation. */
  lemma {:induction false} ConcatGroupsAgree(order: seq<string>, xs: seq<Article>, f: seq<Article> -> seq<Article>,
                                             ys: seq<Article>, h: seq<Article> -> seq<Article>)
    requires forall i :: 0 <= i < |order| ==> f(OfSource(xs, order[i])) == h(OfSource(ys, order[i]))
    ensures ConcatGroups(order, xs, f) == ConcatGroups(order, ys, h)
  {
    if order != [] {
      var init := order[..|order| - 1];
      assert forall i :: 0 <= i < |init| ==> init[i] == order[i];
      ConcatGroupsAgree(init, xs, f, ys, h);
    }
  }

  /** `keys` and `groups` are the grouping of `seen`: the keys in first-appearance order, each
      mapped to its source's articles. */
  predicate GroupedAs(seen: seq<Article>, keys: seq<string>, groups: map<string, seq<Article>>) {
    && keys == Sources(seen)
    && (forall s :: s in groups ==> s in keys)
    && (forall s :: s in keys ==> s in groups)
    && (forall s :: s in groups ==> groups[s] == OfSource(seen, s))
  }

  /** One step of the grouping loop keeps the grouping up to date: an article of a source
      already seen is appended to that source's list, ... */
  lemma GroupStepSeen(seen: seq<Article>, a: Article, keys: seq<string>, groups: map<string, seq<Article>>)
    requires GroupedAs(seen, keys, groups) && a.source in groups
    ensures GroupedAs(seen + [a], keys, groups[a.source := groups[a.source] + [a]])
  {
    SourcesSnoc(seen, a);
    var updated := groups[a.source := groups[a.source] + [a]];
    forall s | s in updated ensures updated[s] == OfSource(seen + [a], s) {
      OfSourceSnoc(seen, a, s);
    }
  }

  /** ... and an article of a new source opens a new list at the end of the keys. */
  lemma GroupStepNew(seen: seq<Article>, a: Article, keys: seq<string>, groups: map<string, seq<Article>>)
    requires GroupedAs(seen, keys, groups) && a.source !in groups
    ensures GroupedAs(seen + [a], keys + [a.source], groups[a.source := [a]])
  {
    SourcesSnoc(seen, a);
    forall s ensures OfSource(seen + [a], s) == OfSource(seen, s) + (if a.source == s then [a] else []) {
      OfSourceSnoc(seen, a, s);
    }
    SourcesMembers(seen, a.source);
  }

  /** The grouping loop `for article in articles: source_groups[article["source"]].append(article)`:
      its keys are the sources in first-appearance order and each list is that source's articles. */
  method GroupBySource(xs: seq<Article>) returns (keys: seq<string>, groups: map<string, seq<Article>>)
    ensures keys == Sources(xs)
    ensures forall s :: s in groups ==> s in keys
    ensures forall s :: s in keys ==> s in groups
    ensures forall s :: s in groups ==> groups[s] == OfSource(xs, s)
  {
    keys, groups := [], map[];
    for i := 0 to |xs|
      invariant GroupedAs(xs[..i], keys, groups)
    {
      var a := xs[i];
      assert xs[..i + 1] == xs[..i] + [a];
      if a.source in groups {
        GroupStepSeen(xs[..i], a, keys, groups);
        groups := groups[a.source := groups[a.source] + [a]];
      } else {
        GroupStepNew(xs[..i], a, keys, groups);
        keys := keys + [a.source];
        groups := groups[a.source := [a]];
      }
    }
    assert xs[..|xs|] == xs;
  }
}
