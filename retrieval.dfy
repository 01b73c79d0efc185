/** Source-priority ranking of articles and similarity retrieval over the article table. */
module Retrieval {
  import opened Wrappers
  import opened Sorting
  import opened Articles
  import opened Embeddings
  import opened Database

  /** `source_priority`: a higher number ranks first; unlisted sources count as 0. */
  function Priority(source: string): nat {
    if source == "smol.ai" then 3
    else if source == "TechCrunch" then 2
    else if source == "HuggingFace" then 1
    else 0
  }

  /** The keys of `source_priority` in the order `sorted(..., reverse=True)` visits them. */
  const PriorityOrder: seq<string> := ["smol.ai", "TechCrunch", "HuggingFace"]

  function SourceRank(source: string): real {
    Priority(source) as real
  }

  function ArticleRank(a: Article): real {
    Priority(a.source) as real
  }

  predicate IsUnlisted(source: string) {
    source !in PriorityOrder
  }

  function PresentIn(keys: seq<string>): string -> bool {
    (s: string) => s in keys
  }

  /** The priority table is visited from the highest to the lowest number, and it lists
      exactly the sources with a non-zero priority. */
  lemma PriorityOrderRanked()
    ensures NonIncreasing(PriorityOrder, SourceRank) && Distinct(PriorityOrder)
    ensures forall s :: s in PriorityOrder ==> Priority(s) > 0
    ensures forall s :: Priority(s) > 0 ==> s in PriorityOrder
  {
  }

  /** `all("similarity" in x for x in group)`. */
  predicate AllHaveSimilarity(g: seq<Article>) {
    forall i :: 0 <= i < |g| ==> g[i].similarity.Some?
  }

  /** The in-place sort of one source's list: by similarity if every item has one, otherwise by
      timestamp; highest first and stable either way. */
  function SortGroup(g: seq<Article>): seq<Article> {
    if AllHaveSimilarity(g) then SortDesc(g, SimKey) else SortDesc(g, TsKey)
  }

  /** The group comes out reordered, never changed, and highest key first. */
  lemma SortGroupOrder(g: seq<Article>)
    ensures multiset(SortGroup(g)) == multiset(g)
    ensures AllHaveSimilarity(g) ==> NonIncreasing(SortGroup(g), SimKey)
    ensures !AllHaveSimilarity(g) ==> NonIncreasing(SortGroup(g), TsKey)
  {
  }

  /** Equal keys keep their input order within a group. */
  lemma SortGroupStable(g: seq<Article>, v: real)
    ensures AllHaveSimilarity(g) ==> Filter(SortGroup(g), KeyIs(SimKey, v)) == Filter(g, KeyIs(SimKey, v))
    ensures !AllHaveSimilarity(g) ==> Filter(SortGroup(g), KeyIs(TsKey, v)) == Filter(g, KeyIs(TsKey, v))
  {
    SortDescStable(g, SimKey, v);
    SortDescStable(g, TsKey, v);
  }

  lemma SortGroupIdempotent(g: seq<Article>)
    ensures SortGroup(SortGroup(g)) == SortGroup(g)
  {
    var r := SortGroup(g);
    SortGroupOrder(g);
    assert AllHaveSimilarity(r) == AllHaveSimilarity(g) by {
      forall i | 0 <= i < |r| ensures r[i] in multiset(g) { assert r[i] in multiset(r); }
      forall i | 0 <= i < |g| ensures g[i] in multiset(r) { assert g[i] in multiset(g); }
    }
    SortDescIdempotent(g, SimKey);
    SortDescIdempotent(g, TsKey);
  }

  lemma SortGroupPermutes()
    ensures Permutes(SortGroup) && Shrinks(SortGroup)
  {
    forall g ensures multiset(SortGroup(g)) == multiset(g) {
      SortGroupOrder(g);
    }
  }

  /** The order in which groups are emitted: the listed sources that occur, by priority, then
      the unlisted ones in first-appearance order. */
  function EmissionOrder(xs: seq<Article>): seq<string> {
    Filter(PriorityOrder, PresentIn(Sources(xs))) + Filter(Sources(xs), IsUnlisted)
  }

  /** The result of `sort_by_source_priority`. */
  function Ranked(xs: seq<Article>): seq<Article> {
    ConcatGroups(EmissionOrder(xs), xs, SortGroup)
  }

  lemma ConcatGroupsSnoc(order: seq<string>, s: string, xs: seq<Article>, f: seq<Article> -> seq<Article>)
    ensures ConcatGroups(order + [s], xs, f) == ConcatGroups(order, xs, f) + f(OfSource(xs, s))
  {
    assert (order + [s])[..|order|] == order;
  }

  /** Each source of the input is emitted exactly once. */
  lemma EmissionOrderCovers(xs: seq<Article>)
    ensures Distinct(EmissionOrder(xs))
    ensures forall s :: s in EmissionOrder(xs) ==> s in Sources(xs)
    ensures forall s :: s in Sources(xs) ==> s in EmissionOrder(xs)
  {
    var keys := Sources(xs);
    var listed := Filter(PriorityOrder, PresentIn(keys));
    var unlisted := Filter(keys, IsUnlisted);
    PriorityOrderRanked();
    FilterDistinct(PriorityOrder, PresentIn(keys));
    FilterDistinct(keys, IsUnlisted);
    FilterMembers(PriorityOrder, PresentIn(keys));
    FilterMembers(keys, IsUnlisted);
    DistinctConcat(listed, unlisted);
  }

  /** Emitted in that order, priorities never go up. */
  lemma EmissionOrderRanked(xs: seq<Article>)
    ensures NonIncreasing(EmissionOrder(xs), SourceRank)
  {
    var keys := Sources(xs);
    var listed := Filter(PriorityOrder, PresentIn(keys));
    var unlisted := Filter(keys, IsUnlisted);
    PriorityOrderRanked();
    FilterSorted(PriorityOrder, PresentIn(keys), SourceRank);
    FilterMembers(PriorityOrder, PresentIn(keys));
    FilterMembers(keys, IsUnlisted);
    forall i | 0 <= i < |listed| ensures SourceRank(listed[i]) >= 1.0 {
      assert listed[i] in listed;
    }
    forall j | 0 <= j < |unlisted| ensures SourceRank(unlisted[j]) == 0.0 {
      assert unlisted[j] in unlisted;
    }
    SortedConcat(listed, unlisted, SourceRank);
  }

  /** Concatenating groups in non-increasing priority gives articles in non-increasing priority. */
  lemma {:induction false} ConcatGroupsRanked(order: seq<string>, xs: seq<Article>, f: seq<Article> -> seq<Article>)
    requires NonIncreasing(order, SourceRank) && Shrinks(f)
    ensures NonIncreasing(ConcatGroups(order, xs, f), ArticleRank)
  {
    if order != [] {
      var init, last := order[..|order| - 1], order[|order| - 1];
      var e := ConcatGroups(init, xs, f);
      var g := f(OfSource(xs, last));
      ConcatGroupsRanked(init, xs, f);
      ConcatGroupsMembers(init, xs, f);
      GroupMembers(xs, last, f);
      forall i, j | 0 <= i < |e| && 0 <= j < |g| ensures ArticleRank(e[i]) >= ArticleRank(g[j]) {
        assert e[i] in e && g[j] in g;
        var m :| 0 <= m < |init| && init[m] == e[i].source;
        assert order[m] == init[m];
      }
      assert forall i, j :: 0 <= i < j < |g| ==> g[i] in g && g[j] in g;
      SortedConcat(e, g, ArticleRank);
    }
  }

  /** The output is a permutation of the input: nothing is added or dropped. */
  lemma RankedPermutes(xs: seq<Article>)
    ensures multiset(Ranked(xs)) == multiset(xs)
  {
    EmissionOrderCovers(xs);
    SortGroupPermutes();
    ConcatGroupsPermutes(EmissionOrder(xs), xs, SortGroup);
    forall i | 0 <= i < |xs| ensures xs[i].source in EmissionOrder(xs) {
      ArticleSourceListed(xs, xs[i]);
    }
    AllSourcesKept(xs, EmissionOrder(xs));
  }

  /** smol.ai before TechCrunch before HuggingFace before every other source. */
  lemma RankedByPriority(xs: seq<Article>)
    ensures NonIncreasing(Ranked(xs), ArticleRank)
  {
    EmissionOrderRanked(xs);
    SortGroupPermutes();
    ConcatGroupsRanked(EmissionOrder(xs), xs, SortGroup);
  }

  /** The articles of each source form one contiguous block. */
  lemma RankedContiguous(xs: seq<Article>)
    ensures Contiguous(Ranked(xs))
  {
    EmissionOrderCovers(xs);
    SortGroupPermutes();
    ConcatGroupsContiguous(EmissionOrder(xs), xs, SortGroup);
  }

  /** Within one source, the output is that source's articles sorted by the group rule. */
  lemma RankedWithinSource(xs: seq<Article>, src: string)
    ensures OfSource(Ranked(xs), src) == SortGroup(OfSource(xs, src))
  {
    EmissionOrderCovers(xs);
    SortGroupPermutes();
    ConcatGroupsOfSource(EmissionOrder(xs), xs, SortGroup, src);
    SourcesMembers(xs, src);
  }

  /** Sources appear in emission order; in particular the unlisted sources keep the order in
      which they first appear in the input. */
  lemma RankedSourceOrder(xs: seq<Article>)
    ensures Sources(Ranked(xs)) == EmissionOrder(xs)
    ensures Filter(Sources(Ranked(xs)), IsUnlisted) == Filter(Sources(xs), IsUnlisted)
  {
    var order := EmissionOrder(xs);
    EmissionOrderCovers(xs);
    SortGroupPermutes();
    forall i | 0 <= i < |order| ensures SortGroup(OfSource(xs, order[i])) != [] {
      assert order[i] in order;
      SourcesMembers(xs, order[i]);
      var g := OfSource(xs, order[i]);
      SortGroupOrder(g);
      assert g[0] in multiset(SortGroup(g));
    }
    ConcatGroupsSources(order, xs, SortGroup);
    UnlistedPart(xs);
  }

  /** The unlisted part of the emission order is the unlisted part of the input's sources. */
  lemma UnlistedPart(xs: seq<Article>)
    ensures Filter(EmissionOrder(xs), IsUnlisted) == Filter(Sources(xs), IsUnlisted)
  {
    var keys := Sources(xs);
    var listed := Filter(PriorityOrder, PresentIn(keys));
    var unlisted := Filter(keys, IsUnlisted);
    FilterConcat(listed, unlisted, IsUnlisted);
    FilterMembers(PriorityOrder, PresentIn(keys));
    FilterMembers(keys, IsUnlisted);
    assert forall i :: 0 <= i < |listed| ==> listed[i] in listed;
    FilterNone(listed, IsUnlisted);
    assert forall i :: 0 <= i < |unlisted| ==> unlisted[i] in unlisted;
    FilterAllPass(unlisted, IsUnlisted);
  }

  /** Ranking a ranked list changes nothing. */
  lemma RankedIdempotent(xs: seq<Article>)
    ensures Ranked(Ranked(xs)) == Ranked(xs)
  {
    var r := Ranked(xs);
    var order := EmissionOrder(xs);
    RankedSourceOrder(xs);
    EmissionOrderCovers(xs);
    assert EmissionOrder(r) == order by {
      FilterAgree(PriorityOrder, PresentIn(Sources(r)), PresentIn(Sources(xs)));
      UnlistedPart(xs);
    }
    forall i | 0 <= i < |order| ensures SortGroup(OfSource(r, order[i])) == SortGroup(OfSource(xs, order[i])) {
      RankedWithinSource(xs, order[i]);
      SortGroupIdempotent(OfSource(xs, order[i]));
    }
    ConcatGroupsAgree(order, r, SortGroup, xs, SortGroup);
  }

  /** The loop `for source in source_groups: source_groups[source].sort(...)`. */
  method SortEachGroup(keys: seq<string>, groups: map<string, seq<Article>>) returns (sortedGroups: map<string, seq<Article>>)
    requires Distinct(keys)
    requires forall s :: s in groups ==> s in keys
    requires forall s :: s in keys ==> s in groups
    ensures sortedGroups.Keys == groups.Keys
    ensures forall s :: s in groups ==> sortedGroups[s] == SortGroup(groups[s])
  {
    sortedGroups := groups;
    for i := 0 to |keys|
      invariant sortedGroups.Keys == groups.Keys
      invariant forall s :: s in groups ==>
                  sortedGroups[s] == if s in keys[..i] then SortGroup(groups[s]) else groups[s]
    {
      assert keys[..i + 1] == keys[..i] + [keys[i]];
      assert keys[i] !in keys[..i] by {
        DistinctLast(keys[..i + 1]);
      }
      sortedGroups := sortedGroups[keys[i] := SortGroup(sortedGroups[keys[i]])];
    }
    assert keys[..|keys|] == keys;
  }

  /** The first emission loop: the listed sources, by priority, that have a group. Each group
      in `groups` is `f` of the input's articles of that source. */
  method EmitListed(keys: seq<string>, groups: map<string, seq<Article>>, xs: seq<Article>,
                    ghost f: seq<Article> -> seq<Article>)
    returns (out: seq<Article>)
    requires forall s :: s in groups ==> s in keys
    requires forall s :: s in keys ==> s in groups
    requires forall s :: s in groups ==> groups[s] == f(OfSource(xs, s))
    ensures out == ConcatGroups(Filter(PriorityOrder, PresentIn(keys)), xs, f)
  {
    out := [];
    ghost var done := [];
    for i := 0 to |PriorityOrder|
      invariant done == Filter(PriorityOrder[..i], PresentIn(keys))
      invariant out == ConcatGroups(done, xs, f)
    {
      var source := PriorityOrder[i];
      assert PriorityOrder[..i + 1] == PriorityOrder[..i] + [source];
      FilterSnoc(PriorityOrder[..i], source, PresentIn(keys));
      if source in groups {
        ConcatGroupsSnoc(done, source, xs, f);
        out := out + groups[source];
        done := done + [source];
      }
    }
    assert PriorityOrder[..|PriorityOrder|] == PriorityOrder;
  }

  /** The second emission loop: the unlisted sources, in first-appearance order, appended to
      what the first loop emitted. */
  method EmitUnlisted(keys: seq<string>, groups: map<string, seq<Article>>, xs: seq<Article>,
                      ghost f: seq<Article> -> seq<Article>, init: seq<Article>, ghost listed: seq<string>)
    returns (out: seq<Article>)
    requires forall s :: s in keys ==> s in groups
    requires forall s :: s in groups ==> groups[s] == f(OfSource(xs, s))
    requires init == ConcatGroups(listed, xs, f)
    ensures out == ConcatGroups(listed + Filter(keys, IsUnlisted), xs, f)
  {
    out := init;
    assert listed + Filter(keys[..0], IsUnlisted) == listed;
    for i := 0 to |keys|
      invariant out == ConcatGroups(listed + Filter(keys[..i], IsUnlisted), xs, f)
    {
      var source := keys[i];
      UnlistedStep(listed, keys, i, xs, f);
      if IsUnlisted(source) {
        out := out + groups[source];
      }
    }
    assert keys[..|keys|] == keys;
  }

  /** One step of the second emission loop. */
  lemma UnlistedStep(listed: seq<string>, keys: seq<string>, i: nat, xs: seq<Article>, f: seq<Article> -> seq<Article>)
    requires i < |keys|
    ensures ConcatGroups(listed + Filter(keys[..i + 1], IsUnlisted), xs, f)
         == ConcatGroups(listed + Filter(keys[..i], IsUnlisted), xs, f)
            + (if IsUnlisted(keys[i]) then f(OfSource(xs, keys[i])) else [])
  {
    var done := listed + Filter(keys[..i], IsUnlisted);
    assert keys[..i + 1] == keys[..i] + [keys[i]];
    FilterSnoc(keys[..i], keys[i], IsUnlisted);
    if IsUnlisted(keys[i]) {
      assert listed + Filter(keys[..i + 1], IsUnlisted) == done + [keys[i]];
      ConcatGroupsSnoc(done, keys[i], xs, f);
    } else {
      assert listed + Filter(keys[..i + 1], IsUnlisted) == done;
    }
  }

  /** `sort_by_source_priority`: group by source, sort each group in place, then emit the
      listed groups by priority and the remaining groups in dictionary order. */
  method SortBySourcePriority(articles: seq<Article>) returns (sorted: seq<Article>)
    ensures sorted == Ranked(articles)
  {
    var keys, groups := GroupBySource(articles);
    var sortedGroups := SortEachGroup(keys, groups);
    sorted := EmitListed(keys, sortedGroups, articles, SortGroup);
    sorted := EmitUnlisted(keys, sortedGroups, articles, SortGroup, sorted, Filter(PriorityOrder, PresentIn(keys)));
  }

  /** SIM_THRESHOLD. */
  const SimThreshold: real := 0.15

  /** MAX_CONTEXT_ARTICLES, the default `k`. */
  const MaxContextArticles: int := 5

  /** The stored embedding of every row, or None when any of them fails to decode. */
  function DecodeAll(rows: seq<Row>): (r: Option<seq<seq<Word>>>)
    ensures r.Some? ==> |r.value| == |rows|
    ensures r.Some? <==> forall i :: 0 <= i < |rows| ==> BytesToVec(rows[i].embedding).Some?
    ensures r.Some? ==> forall i :: 0 <= i < |rows| ==> r.value[i] == BytesToVec(rows[i].embedding).value
  {
    if rows == [] then Some([])
    else
      var v := BytesToVec(rows[0].embedding);
      var rest := DecodeAll(rows[1..]);
      if v.None? || rest.None? then
        assert !BytesToVec(rows[0].embedding).Some? || !BytesToVec(rows[1..][0].embedding).Some? || rest.None?;
        None
      else Some([v.value] + rest.value)
  }

  /** A retrieval result built from a row and its similarity. */
  function Hit(row: Row, sim: real): Article {
    Article(row.source, row.title, row.content, row.publishedTs, row.url, row.author, Some(sim))
  }

  /** The rows whose similarity reaches the threshold, in row order, as results. */
  function Survivors(rows: seq<Row>, sims: seq<real>): (r: seq<Article>)
    requires |sims| == |rows|
    ensures forall a :: a in r ==> a.similarity.Some? && a.similarity.value >= SimThreshold
    ensures |r| <= |rows|
  {
    if rows == [] then []
    else
      var rest := Survivors(rows[..|rows| - 1], sims[..|sims| - 1]);
      if sims[|sims| - 1] < SimThreshold then rest else rest + [Hit(rows[|rows| - 1], sims[|sims| - 1])]
  }

  /** The similarity of the query to each stored vector. */
  function Similarities(q: seq<Word>, vecs: seq<seq<Word>>, score: (seq<Word>, seq<Word>) -> real): (r: seq<real>)
    ensures |r| == |vecs|
    ensures forall i :: 0 <= i < |vecs| ==> r[i] == score(q, vecs[i])
  {
    seq(|vecs|, i requires 0 <= i < |vecs| => score(q, vecs[i]))
  }

  /** What `retrieve` returns. `rows` is None when reading the table raises; `query` is None
      when encoding the question raises; `score` is the cosine similarity of two vectors. */
  function RetrieveResult(rows: Option<seq<Row>>, query: Option<seq<Word>>,
                          score: (seq<Word>, seq<Word>) -> real, k: int): seq<Article>
  {
    if rows.None? || rows.value == [] then []
    else
      var vecs := DecodeAll(rows.value);
      if vecs.None? || query.None? then []
      else
        PyTake(Ranked(Survivors(rows.value, Similarities(query.value, vecs.value, score))), k)
  }

  /** The scoring loop: each row whose similarity reaches the threshold becomes a result. */
  method KeepAboveThreshold(all: seq<Row>, sims: seq<real>) returns (results: seq<Article>)
    requires |sims| == |all|
    ensures results == Survivors(all, sims)
  {
    results := [];
    for i := 0 to |all|
      invariant results == Survivors(all[..i], sims[..i])
    {
      assert all[..i + 1][..i] == all[..i] && sims[..i + 1][..i] == sims[..i];
      if sims[i] >= SimThreshold {
        results := results + [Hit(all[i], sims[i])];
      }
    }
    assert all[..|all|] == all && sims[..|sims|] == sims;
  }

  /** `retrieve(query, k)`. */
  method Retrieve(rows: Option<seq<Row>>, query: Option<seq<Word>>,
                  score: (seq<Word>, seq<Word>) -> real, k: int) returns (results: seq<Article>)
    ensures results == RetrieveResult(rows, query, score, k)
  {
    if rows.None? {
      return [];
    }
    if rows.value == [] {
      return [];
    }
    var vecs := DecodeAll(rows.value);
    if vecs.None? {
      return [];
    }
    if query.None? {
      return [];
    }
    var all := rows.value;
    var sims := Similarities(query.value, vecs.value, score);
    results := KeepAboveThreshold(all, sims);
    results := SortBySourcePriority(results);
    results := PyTake(results, k);
  }

  /** No result falls below the similarity threshold. */
  lemma RetrieveAboveThreshold(rows: Option<seq<Row>>, query: Option<seq<Word>>,
                               score: (seq<Word>, seq<Word>) -> real, k: int)
    ensures forall a :: a in RetrieveResult(rows, query, score, k) ==>
              a.similarity.Some? && a.similarity.value >= SimThreshold
  {
    if rows.Some? && rows.value != [] && DecodeAll(rows.value).Some? && query.Some? {
      var vecs := DecodeAll(rows.value);
      var sims := Similarities(query.value, vecs.value, score);
      var s := Survivors(rows.value, sims);
      RankedPermutes(s);
      forall a | a in RetrieveResult(rows, query, score, k)
        ensures a.similarity.Some? && a.similarity.value >= SimThreshold
      {
        assert a in Ranked(s);
        assert a in multiset(Ranked(s));
      }
    }
  }

  /** At most `k` results; asking for fewer gives a prefix of the longer answer. */
  lemma RetrieveTopK(rows: Option<seq<Row>>, query: Option<seq<Word>>,
                     score: (seq<Word>, seq<Word>) -> real, j: int, k: int)
    requires 0 <= j <= k
    ensures |RetrieveResult(rows, query, score, k)| <= k
    ensures RetrieveResult(rows, query, score, j) == RetrieveResult(rows, query, score, k)[..|RetrieveResult(rows, query, score, j)|]
  {
    if rows.Some? && rows.value != [] && DecodeAll(rows.value).Some? && query.Some? {
      var vecs := DecodeAll(rows.value);
      var r := Ranked(Survivors(rows.value, Similarities(query.value, vecs.value, score)));
      PyTakePrefix(r, j, k);
    }
  }

  /** The four fail-soft cases all give the empty list. */
  lemma RetrieveFailSoft(rows: Option<seq<Row>>, query: Option<seq<Word>>,
                         score: (seq<Word>, seq<Word>) -> real, k: int)
    requires rows.None? || rows.value == []
          || (exists i :: 0 <= i < |rows.value| && BytesToVec(rows.value[i].embedding).None?)
          || query.None?
    ensures RetrieveResult(rows, query, score, k) == []
  {
  }
}
