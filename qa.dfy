/** Question answering and the weekly summary: article formatting, the per-source cap, the
    split into chunks of two, and the map-reduce over LLM calls with its fixed replies. */
module QA {
  import opened Wrappers
  import opened Text
  import opened Sorting
  import opened Articles
  import opened Embeddings
  import opened Database
  import opened Retrieval
  import opened Llm

  // ----- Fixed replies -----

  /** `answer` when nothing is retrieved. */
  const NoArticlesReply: string := "عذراً، لم أجد أي مقالات ذات صلة بسؤالك. يرجى المحاولة مرة أخرى لاحقاً أو طرح سؤال مختلف."

  /** `answer` on a blank final answer or an exception. */
  const AnswerErrorReply: string := "عذراً، حدث خطأ في معالجة السؤال. يرجى المحاولة مرة أخرى."

  /** `summary_today` when no rows are recent. */
  const NoNewsReply: string := "لم يتم العثور على أخبار للأيام الماضية. يرجى المحاولة لاحقاً."

  /** `summary_today` on a blank summary or an exception. */
  const SummaryErrorReply: string := "عذراً، حدث خطأ في إنشاء الملخص. يرجى المحاولة مرة أخرى."

  /** The title every digest starts with. */
  const SummaryTitle: string := "WEEKLY AI NEWS SUMMARY"

  // ----- Article formatting -----

  /** `content[:n] + "..."`: at most `n` characters of the content, then three dots. */
  function Excerpt(content: string, n: nat): (r: string)
    ensures |r| == (if |content| < n then |content| else n) + 3
    ensures StartsWith(content, r[..|r| - 3]) && r[|r| - 3..] == "..."
    ensures |content| <= n ==> r == content + "..."
  {
    Take(content, n) + "..."
  }

  /** `format_article_for_context`; `date` is the article's timestamp as `%Y-%m-%d`. The
      author is "Unknown" when it is missing or empty, and the content is cut to its first
      2000 characters, then "..." (the bound is `Excerpt`'s). */
  function FormatArticleForContext(a: Article, date: string): (r: string)
    ensures r == "\nTitle: " + a.title + "\nSource: " + a.source + "\nDate: " + date
                 + "\nAuthor: " + OrElse(a.author, "Unknown")
                 + "\nContent: " + Excerpt(a.content, 2000) + "\nURL: " + a.url + "\n"
    ensures !Truthy(a.author) ==> StartsWith(r, "\nTitle: " + a.title + "\nSource: " + a.source
                                              + "\nDate: " + date + "\nAuthor: Unknown\n")
  {
    var head := "\nTitle: " + a.title + "\nSource: " + a.source + "\nDate: " + date + "\nAuthor: ";
    var r := head + OrElse(a.author, "Unknown") + "\nContent: " + Excerpt(a.content, 2000) + "\nURL: " + a.url + "\n";
    assert !Truthy(a.author) ==> r[..|head + "Unknown\n"|] == head + "Unknown\n";
    r
  }

  /** `format_article_for_summary`: the same "Unknown" author rule, and the content cut to
      its first 200 characters, then "...". */
  function FormatArticleForSummary(a: Article): (r: string)
    ensures r == "• " + a.title + "\n  Source: " + a.source + "\n  Author: " + OrElse(a.author, "Unknown")
                 + "\n  Summary: " + Excerpt(a.content, 200) + "\n  URL: " + a.url + "\n"
  {
    "• " + a.title + "\n  Source: " + a.source + "\n  Author: " + OrElse(a.author, "Unknown")
      + "\n  Summary: " + Excerpt(a.content, 200) + "\n  URL: " + a.url + "\n"
  }

  /** The context block carries at most 2000 characters of the content: a prefix of it, all of
      it when it is no longer, then "...". */
  lemma ContextExcerpt(a: Article, date: string)
    ensures var head := "\nTitle: " + a.title + "\nSource: " + a.source + "\nDate: " + date
                        + "\nAuthor: " + OrElse(a.author, "Unknown") + "\nContent: ";
            var tail := "...\nURL: " + a.url + "\n";
            && StartsWith(FormatArticleForContext(a, date), head)
            && (var x := Take(a.content, 2000);
                |x| <= 2000 && StartsWith(a.content, x) && FormatArticleForContext(a, date) == head + x + tail)
            && (|a.content| <= 2000 ==> FormatArticleForContext(a, date) == head + a.content + tail)
  {
  }

  /** The summary block carries at most 200 characters of the content, all of it when it is
      no longer. */
  lemma SummaryExcerpt(a: Article)
    ensures var head := "• " + a.title + "\n  Source: " + a.source + "\n  Author: " + OrElse(a.author, "Unknown")
                        + "\n  Summary: ";
            var tail := "...\n  URL: " + a.url + "\n";
            && StartsWith(FormatArticleForSummary(a), head)
            && (var x := Take(a.content, 200);
                |x| <= 200 && StartsWith(a.content, x) && FormatArticleForSummary(a) == head + x + tail)
            && (|a.content| <= 200 ==> FormatArticleForSummary(a) == head + a.content + tail)
  {
  }

  // ----- Per-source cap -----

  /** `source_groups[source][:max_per_source]`. */
  function Cap(n: int): seq<Article> -> seq<Article> {
    (g: seq<Article>) => PyTake(g, n)
  }

  lemma CapShrinks(n: int)
    ensures Shrinks(Cap(n))
  {
    forall g ensures multiset(Cap(n)(g)) <= multiset(g) {
      var t := PyTake(g, n);
      assert g == t + g[|t|..];
    }
  }

  /** What `ensure_source_diversity(articles, n)` returns: the first `n` articles of each
      source, sources in first-appearance order, then sorted newest first. */
  function Diversified(xs: seq<Article>, n: int): (r: seq<Article>)
    ensures NonIncreasing(r, TsKey)
    ensures multiset(r) <= multiset(xs)
  {
    var kept := ConcatGroups(Sources(xs), xs, Cap(n));
    CapShrinks(n);
    ConcatGroupsShrinks(Sources(xs), xs, Cap(n));
    FilterMembers(xs, InSources(Sources(xs)));
    SortDesc(kept, TsKey)
  }

  /** `ensure_source_diversity`: the grouping loop, the capped `extend` loop and the in-place
      sort by timestamp. */
  method EnsureSourceDiversity(xs: seq<Article>, maxPerSource: int) returns (r: seq<Article>)
    ensures r == Diversified(xs, maxPerSource)
  {
    var keys, groups := GroupBySource(xs);
    var diverse := [];
    for i := 0 to |keys|
      invariant diverse == ConcatGroups(keys[..i], xs, Cap(maxPerSource))
    {
      PrefixSnoc(keys, i);
      ConcatGroupsSnoc(keys[..i], keys[i], xs, Cap(maxPerSource));
      diverse := diverse + PyTake(groups[keys[i]], maxPerSource);
    }
    assert keys[..|keys|] == keys;
    r := SortDesc(diverse, TsKey);
  }

  /** For every source, the kept articles are exactly its first `n` (a permutation of them,
      since the final sort is by timestamp). */
  lemma DiversifiedPerSource(xs: seq<Article>, n: int, src: string)
    ensures multiset(OfSource(Diversified(xs, n), src)) == multiset(PyTake(OfSource(xs, src), n))
  {
    var kept := ConcatGroups(Sources(xs), xs, Cap(n));
    CapShrinks(n);
    FilterPermutation(SortDesc(kept, TsKey), kept, FromSource(src));
    ConcatGroupsOfSource(Sources(xs), xs, Cap(n), src);
    if src !in Sources(xs) {
      SourcesMembers(xs, src);
    }
  }

  /** At most `n` articles of any one source survive. */
  lemma DiversifiedCap(xs: seq<Article>, n: int, src: string)
    requires 0 <= n
    ensures |OfSource(Diversified(xs, n), src)| <= n
  {
    DiversifiedPerSource(xs, n, src);
    assert |multiset(OfSource(Diversified(xs, n), src))| == |multiset(PyTake(OfSource(xs, src), n))|;
  }

  /** A source with at most `n` articles keeps all of them. */
  lemma DiversifiedSmallSource(xs: seq<Article>, n: int, src: string)
    requires |OfSource(xs, src)| <= n
    ensures multiset(OfSource(Diversified(xs, n), src)) == multiset(OfSource(xs, src))
  {
    DiversifiedPerSource(xs, n, src);
  }

  // ----- Chunks of two -----

  /** `chunk_size = 2`. */
  const ChunkSize: nat := 2

  /** The chunks `articles[i:i+2]` for `i in range(0, len(articles), 2)`. */
  function Chunks<T>(xs: seq<T>): (r: seq<seq<T>>)
    ensures forall j :: 0 <= j < |r| ==> 1 <= |r[j]| <= ChunkSize
  {
    Slices(xs, ChunkSize)
  }

  /** The chunks are consecutive and cover the articles exactly once, in order. */
  lemma ChunksCover<T>(xs: seq<T>)
    ensures Flatten(Chunks(xs)) == xs
  {
    SlicesPartition(xs, ChunkSize);
  }

  /** There are ceil(n / 2) chunks: the total `(len(articles) + chunk_size - 1) // chunk_size`
      the weekly job logs. */
  lemma {:induction false} ChunkCount(n: nat)
    ensures SliceCount(n, ChunkSize) == (n + ChunkSize - 1) / ChunkSize
  {
    if n > ChunkSize {
      ChunkCount(n - ChunkSize);
    }
  }

  // ----- Map-reduce -----

  /** The calls `gens` were made with these prompts and this budget, by clients that started on
      backend `b`. */
  ghost predicate Asked(gens: seq<Generation>, prompts: seq<string>, budget: int, b: Backend)
  {
    && |gens| == |prompts|
    && forall j :: 0 <= j < |gens| ==>
         gens[j].prompt == prompts[j] && gens[j].maxTokens == budget && gens[j].start == b
  }

  /** The replies of `gens`, each stripped. */
  function Stripped(gens: seq<Generation>): (r: seq<string>)
    ensures |r| == |gens|
    ensures forall j :: 0 <= j < |gens| ==> r[j] == Strip(gens[j].reply)
  {
    seq(|gens|, j requires 0 <= j < |gens| => Strip(gens[j].reply))
  }

  /** The prompt built from each chunk of two. */
  function ChunkPrompts<T>(items: seq<T>, render: seq<T> -> string): (r: seq<string>)
    ensures |r| == |Chunks(items)|
    ensures forall j :: 0 <= j < |r| ==> r[j] == render(Chunks(items)[j])
  {
    var cs := Chunks(items);
    seq(|cs|, j requires 0 <= j < |cs| => render(cs[j]))
  }

  /** `log` extends `before` by calls asked with `prompts`. */
  ghost predicate LoggedAfter(before: seq<Generation>, log: seq<Generation>, prompts: seq<string>, budget: int, b: Backend)
  {
    |before| <= |log| && log[..|before|] == before && Asked(log[|before|..], prompts, budget, b)
  }

  /** One more call keeps the log and the stripped replies in step. */
  lemma LoggedStep(before: seq<Generation>, log: seq<Generation>, prompts: seq<string>, budget: int, b: Backend,
                   g: Generation, replies: seq<string>)
    requires LoggedAfter(before, log, prompts, budget, b)
    requires replies == Stripped(log[|before|..])
    requires g.maxTokens == budget && g.start == b
    ensures LoggedAfter(before, log + [g], prompts + [g.prompt], budget, b)
    ensures replies + [Strip(g.reply)] == Stripped((log + [g])[|before|..])
  {
    assert (log + [g])[|before|..] == log[|before|..] + [g];
    assert (log + [g])[..|before|] == log[..|before|];
  }

  /** `LLM(backend).generate(prompt, max_tokens)`: None when the constructor rejects the name. */
  method GenerateFresh(name: string, net: Network, prompt: string, maxTokens: int) returns (reply: Option<string>)
    modifies net
    ensures reply.None? <==> ParseBackend(name).None?
    ensures reply.None? ==> net.generations == old(net.generations) && net.sent == old(net.sent)
    ensures reply.Some? ==> net.generations == old(net.generations) + [Generation(ParseBackend(name).value, prompt, maxTokens, reply.value)]
  {
    var llm := NewLLM(name, net);
    if llm == null {
      return None;
    }
    var text := llm.Generate(prompt, maxTokens);
    reply := Some(text);
  }

  /** One step of the walk over the chunks: the chunk at `i` is chunk `j`, and its prompt is
      prompt `j`. */
  lemma ChunkWalk<T>(items: seq<T>, render: seq<T> -> string, i: nat, j: nat)
    requires i < |items| && j <= |Chunks(items)|
    requires Chunks(items) == Chunks(items)[..j] + Slices(items[i..], ChunkSize)
    ensures var end := if i + ChunkSize < |items| then i + ChunkSize else |items|;
            var prompts := ChunkPrompts(items, render);
            && j < |prompts|
            && prompts[..j + 1] == prompts[..j] + [render(items[i..end])]
            && Chunks(items) == Chunks(items)[..j + 1] + Slices(items[end..], ChunkSize)
  {
    SlicesFrom(items, ChunkSize, i, j);
    PrefixSnoc(ChunkPrompts(items, render), j);
  }

  /** The map step both flows share: for `i in range(0, len(items), 2)` a fresh client on `name`
      answers the prompt `render` builds from `items[i:i+2]` within `budget` tokens; the replies
      are collected stripped. None when the backend name is rejected, before anything is sent. */
  method MapChunks<T>(items: seq<T>, render: seq<T> -> string, name: string, net: Network, budget: int)
    returns (replies: Option<seq<string>>)
    modifies net
    ensures replies.None? <==> (items != [] && ParseBackend(name).None?)
    ensures replies.None? ==> net.generations == old(net.generations) && net.sent == old(net.sent)
    ensures replies.Some? && ParseBackend(name).None? ==> net.generations == old(net.generations) && net.sent == old(net.sent)
    ensures replies.Some? && ParseBackend(name).Some? ==>
              && LoggedAfter(old(net.generations), net.generations, ChunkPrompts(items, render), budget, ParseBackend(name).value)
              && replies.value == Stripped(net.generations[|old(net.generations)|..])
  {
    ghost var before := net.generations;
    ghost var sentBefore := net.sent;
    ghost var prompts := ChunkPrompts(items, render);
    ghost var b := if ParseBackend(name).Some? then ParseBackend(name).value else Ollama;
    var out: seq<string> := [];
    var i := 0;
    ghost var j := 0;
    // `i` steps through range(0, len(items), 2); it is kept at `len(items)` after the last
    // chunk, where the range would already have ended.
    while i < |items|
      invariant 0 <= i <= |items| && 0 <= j <= |prompts|
      invariant Chunks(items) == Chunks(items)[..j] + Slices(items[i..], ChunkSize)
      invariant ParseBackend(name).None? ==> j == 0 && net.generations == before && net.sent == sentBefore
      invariant ParseBackend(name).Some? ==> b == ParseBackend(name).value
      invariant LoggedAfter(before, net.generations, prompts[..j], budget, b)
      invariant out == Stripped(net.generations[|before|..])
    {
      ChunkWalk(items, render, i, j);
      var end := if i + ChunkSize < |items| then i + ChunkSize else |items|;
      var chunk := items[i..end];
      var prompt := render(chunk);
      ghost var log := net.generations;
      var reply := GenerateFresh(name, net, prompt, budget);
      if reply.None? {
        return None;
      }
      ghost var g := Generation(b, prompt, budget, reply.value);
      assert net.generations == log + [g];
      LoggedStep(before, log, prompts[..j], budget, b, g, out);
      out := out + [Strip(reply.value)];
      i := end;
      j := j + 1;
    }
    assert Chunks(items) == Chunks(items)[..j];
    assert prompts[..j] == prompts;
    replies := Some(out);
  }

  /** `not s or s.isspace()` on the final reply picks the fixed error instead. */
  function ReplyOr(reply: string, error: string): (r: string)
    ensures IsBlank(reply) ==> r == error
    ensures !IsBlank(reply) ==> r == reply
  {
    if IsBlank(reply) then error else reply
  }

  /** The articles of one chunk for the answer prompt, separated by "\n---\n". */
  function ContextText(chunk: seq<Article>, formatDate: int -> string): string {
    Join("\n---\n", seq(|chunk|, i requires 0 <= i < |chunk| => FormatArticleForContext(chunk[i], formatDate(chunk[i].timestamp))))
  }

  /** The fixed wording of the four prompts, around the parts each call fills in. */
  datatype Prompts = Prompts(
    answerChunk: string,      // before the articles of a chunk
    answerChunkTail: string,  // after the question, in the per-chunk answer prompt
    answerFinal: string,      // before the joined analyses
    answerFinalTail: string,  // after the question, in the final answer prompt
    summaryChunk: string,     // before the news content of a chunk
    summaryFinal: string)     // between the title line and the joined chunk summaries

  function AnswerChunkPrompt(p: Prompts, articles: string, question: string): string {
    p.answerChunk + articles + "\n\nQuestion:\n" + question + p.answerChunkTail
  }

  function AnswerFinalPrompt(p: Prompts, analyses: string, question: string): string {
    p.answerFinal + analyses + "\n\nQuestion:\n" + question + p.answerFinalTail
  }

  /** The answer prompt for one chunk of articles. */
  function AnswerRender(p: Prompts, question: string, formatDate: int -> string): seq<Article> -> string {
    (chunk: seq<Article>) => AnswerChunkPrompt(p, ContextText(chunk, formatDate), question)
  }

  /** The map calls followed by the reduce call: `log` extends `before` by one call per prompt
      and then one call with `final(joined stripped replies)` and budget `finalBudget`. */
  ghost predicate MapReduced(before: seq<Generation>, log: seq<Generation>, prompts: seq<string>, budget: int,
                             final: string -> string, finalBudget: int, b: Backend)
  {
    var n := |prompts|;
    && |before| + n + 1 == |log|
    && LoggedAfter(before, log[..|log| - 1], prompts, budget, b)
    && log[|log| - 1] == Generation(b, final(Join("\n\n", Stripped(log[|before|..|log| - 1]))), finalBudget, log[|log| - 1].reply)
  }

  /** The reduce call after the map calls completes the log `MapReduced` describes. */
  lemma Reduced(before: seq<Generation>, mapped: seq<Generation>, prompts: seq<string>, budget: int,
                final: string -> string, finalBudget: int, b: Backend, reply: string)
    requires LoggedAfter(before, mapped, prompts, budget, b)
    ensures MapReduced(before, mapped + [Generation(b, final(Join("\n\n", Stripped(mapped[|before|..]))), finalBudget, reply)],
                       prompts, budget, final, finalBudget, b)
  {
    var log := mapped + [Generation(b, final(Join("\n\n", Stripped(mapped[|before|..]))), finalBudget, reply)];
    assert log[..|log| - 1] == mapped;
    assert log[|before|..|log| - 1] == mapped[|before|..];
  }

  /** Both flows' map-reduce: the map calls over the chunks, then one call with `final` of the
      joined stripped replies. None when the backend name is rejected; nothing is sent then. */
  method MapReduce<T>(items: seq<T>, render: seq<T> -> string, budget: int,
                      final: string -> string, finalBudget: int, name: string, net: Network)
    returns (reply: Option<string>)
    modifies net
    ensures reply.None? <==> ParseBackend(name).None?
    ensures reply.None? ==> net.generations == old(net.generations) && net.sent == old(net.sent)
    ensures reply.Some? ==>
              && MapReduced(old(net.generations), net.generations, ChunkPrompts(items, render), budget,
                            final, finalBudget, ParseBackend(name).value)
              && reply.value == net.generations[|net.generations| - 1].reply
  {
    ghost var before := net.generations;
    var replies := MapChunks(items, render, name, net, budget);
    if replies.None? {
      return None;
    }
    ghost var mapped := net.generations;
    reply := GenerateFresh(name, net, final(Join("\n\n", replies.value)), finalBudget);
    if reply.Some? {
      Reduced(before, mapped, ChunkPrompts(items, render), budget, final, finalBudget, ParseBackend(name).value, reply.value);
    }
  }

  /** The reduce prompt of `answer`, given the joined analyses. */
  function AnswerFinal(p: Prompts, question: string): string -> string {
    (all: string) => AnswerFinalPrompt(p, all, question)
  }

  /** What `answer` does with the retrieved `matches`: the fixed reply when there are none or
      the backend name is rejected (nothing sent), otherwise the map-reduce over chunks of two
      with budgets 900 and 1200, whose final reply is the answer unless it is blank. The log
      goes from `before` to `after` and the requests from `sentBefore` to `sentAfter`. */
  ghost predicate Answered(p: Prompts, matches: seq<Article>, question: string, formatDate: int -> string, name: string,
                           before: seq<Generation>, after: seq<Generation>,
                           sentBefore: seq<Request>, sentAfter: seq<Request>, text: string)
  {
    && (matches == [] ==> text == NoArticlesReply && after == before && sentAfter == sentBefore)
    && (matches != [] && ParseBackend(name).None? ==>
          text == AnswerErrorReply && after == before && sentAfter == sentBefore)
    && (matches != [] && ParseBackend(name).Some? ==>
          && MapReduced(before, after, ChunkPrompts(matches, AnswerRender(p, question, formatDate)), 900,
                        AnswerFinal(p, question), 1200, ParseBackend(name).value)
          && text == ReplyOr(after[|after| - 1].reply, AnswerErrorReply))
  }

  /** The part of `answer` after retrieval. */
  method AnswerFrom(p: Prompts, matches: seq<Article>, question: string, name: string, net: Network, formatDate: int -> string)
    returns (text: string)
    modifies net
    ensures Answered(p, matches, question, formatDate, name, old(net.generations), net.generations, old(net.sent), net.sent, text)
  {
    if matches == [] {
      return NoArticlesReply;
    }
    var response := MapReduce(matches, AnswerRender(p, question, formatDate), 900, AnswerFinal(p, question), 1200, name, net);
    if response.None? {
      return AnswerErrorReply;
    }
    text := ReplyOr(response.value, AnswerErrorReply);
  }

  /** `answer(question, backend)`. The retrieval inputs are those of `Retrieve`; `formatDate`
      renders a timestamp as `%Y-%m-%d`. Every call goes through a fresh client, so a Groq
      fallback lasts for that call only. */
  method Answer(p: Prompts, question: string, name: string, net: Network,
                rows: Option<seq<Row>>, query: Option<seq<Word>>,
                score: (seq<Word>, seq<Word>) -> real, formatDate: int -> string)
    returns (text: string)
    modifies net
    ensures Answered(p, RetrieveResult(rows, query, score, MaxContextArticles), question, formatDate, name,
                     old(net.generations), net.generations, old(net.sent), net.sent, text)
  {
    var matches := Retrieve(rows, query, score, MaxContextArticles);
    text := AnswerFrom(p, matches, question, name, net, formatDate);
  }

  // ----- The weekly summary -----

  /** A fetched row as the summary sees it: no similarity. */
  function RowArticle(r: Row): Article {
    Article(r.source, r.title, r.content, r.publishedTs, r.url, r.author, None)
  }

  function RowArticles(rows: seq<Row>): (r: seq<Article>)
    ensures |r| == |rows|
    ensures forall i :: 0 <= i < |rows| ==> r[i] == RowArticle(rows[i])
  {
    seq(|rows|, i requires 0 <= i < |rows| => RowArticle(rows[i]))
  }

  /** The content of one summary chunk: each article's title and first 2000 characters. */
  function SummaryChunkText(chunk: seq<Article>): string {
    Join("\n\n", seq(|chunk|, i requires 0 <= i < |chunk| => chunk[i].title + "\n" + Take(chunk[i].content, 2000)))
  }

  function SummaryChunkPrompt(p: Prompts, content: string): string {
    p.summaryChunk + content + "\n"
  }

  /** The summary prompt for one chunk of articles. */
  function SummaryRender(p: Prompts): seq<Article> -> string {
    (chunk: seq<Article>) => SummaryChunkPrompt(p, SummaryChunkText(chunk))
  }

  function SummaryFinalPrompt(p: Prompts, today: string, summaries: string): string {
    SummaryTitle + " - " + today + p.summaryFinal + summaries + "\n"
  }

  /** The reduce prompt of a summary, given the joined chunk summaries. */
  function SummaryFinal(p: Prompts, today: string): string -> string {
    (all: string) => SummaryFinalPrompt(p, today, all)
  }

  /** The articles a summary is written from: priority order, then at most ten per source,
      newest first. */
  function DigestArticles(rows: seq<Row>): seq<Article> {
    Diversified(Ranked(RowArticles(rows)), 10)
  }

  /** The header rule: a summary that does not already start with the title gets
      "WEEKLY AI NEWS SUMMARY - <today>" and a blank line in front. */
  function WithHeader(summary: string, today: string): (r: string)
    ensures StartsWith(r, SummaryTitle)
    ensures StartsWith(summary, SummaryTitle) ==> r == summary
    ensures !StartsWith(summary, SummaryTitle) ==>
              r == SummaryTitle + " - " + today + "\n\n" + summary
  {
    if StartsWith(summary, SummaryTitle) then summary
    else
      var r := SummaryTitle + " - " + today + "\n\n" + summary;
      assert r[..|SummaryTitle|] == SummaryTitle;
      r
  }

  /** Adding the header twice is adding it once. */
  lemma WithHeaderIdempotent(summary: string, today: string)
    ensures WithHeader(WithHeader(summary, today), today) == WithHeader(summary, today)
  {
  }

  /** What `summary_today` does with the fetched `rows`: the fixed reply when there are none or
      the backend name is rejected (nothing sent), otherwise the map-reduce over chunks of two
      of the digest articles with budgets 700 and 1800, whose final reply, when not blank, is
      the summary with the header rule applied. */
  ghost predicate Summarized(p: Prompts, rows: seq<Row>, today: string, name: string,
                             before: seq<Generation>, after: seq<Generation>,
                             sentBefore: seq<Request>, sentAfter: seq<Request>, text: string)
  {
    && (rows == [] ==> text == NoNewsReply && after == before && sentAfter == sentBefore)
    && (rows != [] && ParseBackend(name).None? ==>
          text == SummaryErrorReply && after == before && sentAfter == sentBefore)
    && (rows != [] && ParseBackend(name).Some? ==>
          && MapReduced(before, after, ChunkPrompts(DigestArticles(rows), SummaryRender(p)), 700,
                        SummaryFinal(p, today), 1800, ParseBackend(name).value)
          && var reply := after[|after| - 1].reply;
             text == if IsBlank(reply) then SummaryErrorReply else WithHeader(reply, today))
  }

  /** The row-to-article conversion, `sort_by_source_priority` and `ensure_source_diversity`. */
  method PrepareDigest(rows: seq<Row>) returns (articles: seq<Article>)
    ensures articles == DigestArticles(rows)
  {
    articles := RowArticles(rows);
    articles := SortBySourcePriority(articles);
    articles := EnsureSourceDiversity(articles, 10);
  }

  /** The part of `summary_today` after the fetch. */
  method SummaryFrom(p: Prompts, rows: seq<Row>, name: string, net: Network, today: string)
    returns (text: string)
    modifies net
    ensures Summarized(p, rows, today, name, old(net.generations), net.generations, old(net.sent), net.sent, text)
  {
    if rows == [] {
      return NoNewsReply;
    }
    var articles := PrepareDigest(rows);
    var summary := MapReduce(articles, SummaryRender(p), 700, SummaryFinal(p, today), 1800, name, net);
    if summary.None? {
      return SummaryErrorReply;
    }
    if IsBlank(summary.value) {
      return SummaryErrorReply;
    }
    text := WithHeader(summary.value, today);
  }

  /** `summary_today(backend)`: `fetch_recent(conn, days=7)` on `store` at clock reading `now`;
      `today` is `date.today().isoformat()`. */
  method SummaryToday(p: Prompts, name: string, net: Network, store: ArticleStore, now: int, today: string)
    returns (text: string)
    modifies net
    ensures Summarized(p, store.FetchRecent(now, 7), today, name,
                       old(net.generations), net.generations, old(net.sent), net.sent, text)
  {
    var rows := store.FetchRecent(now, 7);
    text := SummaryFrom(p, rows, name, net, today);
  }
}
