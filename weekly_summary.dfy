/** The weekly job: build the email service and one LLM client, read the last seven days of
    articles, summarise them in chunks of two with that one client, reduce the chunk summaries
    to one summary, put the title in front when it is missing and mail it to every active
    subscriber as the weekly digest. Any exception is logged and raised again. */
module Weekly {
  import opened Wrappers
  import opened Text
  import opened Sorting
  import opened Database
  import opened Llm
  import opened Subscriptions
  import opened Mail
  import opened Articles
  import opened QA

  /** How a run ended: the email service or the LLM client could not be built (each raises),
      there was nothing from the last week, or the digest went out with `send_digest`'s result. */
  datatype WeeklyEnd = ServiceFailed | LlmFailed | NothingNew | Digest(result: DigestResult)

  /** `os.getenv("LLM_BACKEND", "gemini")`. */
  function BackendSetting(env: map<string, string>): string {
    Getenv(env, "LLM_BACKEND", "gemini")
  }

  const MapBudget: int := 700
  const ReduceBudget: int := 1800

  /** The single article object the digest is sent with. */
  function SummaryEntry(summary: string): Entry {
    Entry("Weekly AI News Summary", summary, "AI News Aggregator")
  }

  // ----- One client for every call -----

  /** One `generate` call as a function of the client's backend, the number of requests sent
      before it, the prompt and the token budget. */
  type Caller = (Backend, nat, string, int) -> Step

  /** The step `call` takes; every use of a caller goes through here. */
  function StepOf(call: Caller, b: Backend, n: nat, prompt: string, budget: int): Step {
    call(b, n, prompt, budget)
  }

  /** `generate` on the transports of `net`. */
  function CallerOf(net: Network): Caller {
    (b: Backend, n: nat, prompt: string, budget: int) =>
      GenerateStep(b, net.groqApiKey, n, net.ollamaAt, net.groqAt, prompt, budget)
  }

  /** `call` answers the call on `b` after `n` requests as `generate` on `net` does. */
  ghost predicate Answers(net: Network, call: Caller, b: Backend, n: nat, prompt: string, budget: int) {
    StepOf(call, b, n, prompt, budget) == GenerateStep(b, net.groqApiKey, n, net.ollamaAt, net.groqAt, prompt, budget)
  }

  /** `call` is `generate` on `net`. */
  ghost predicate Serves(net: Network, call: Caller) {
    forall b, n, prompt, budget :: Answers(net, call, b, n, prompt, budget)
  }

  lemma CallerServes(net: Network)
    ensures Serves(net, CallerOf(net))
  {
  }

  /** Where a run of calls on one client got to: the client's backend, the requests sent and
      the calls made. */
  datatype Run = Run(backend: Backend, requests: seq<Request>, calls: seq<Generation>)

  /** The run `r`, which started after `base` requests, followed by one more call on the same
      client. */
  function Then(call: Caller, r: Run, base: nat, prompt: string, budget: int): Run {
    var st := StepOf(call, r.backend, base + |r.requests|, prompt, budget);
    Run(st.backend, r.requests + st.requests, r.calls + [Generation(r.backend, prompt, budget, st.text)])
  }

  /** The prompts asked in order, within `budget` tokens each, by one client that starts on `b`
      after `base` requests. */
  function SharedRun(call: Caller, b: Backend, base: nat, prompts: seq<string>, budget: int): (r: Run)
    ensures |r.calls| == |prompts|
    decreases |prompts|
  {
    if prompts == [] then Run(b, [], [])
    else Then(call, SharedRun(call, b, base, prompts[..|prompts| - 1], budget), base, prompts[|prompts| - 1], budget)
  }

  /** The map calls on `prompts` within 700 tokens, then the reduce call within 1800 on the
      prompt `final` builds from the joined stripped replies, all on one client. */
  function WeeklyRun(call: Caller, b: Backend, base: nat, prompts: seq<string>, final: string -> string): (r: Run)
    ensures |r.calls| == |prompts| + 1
  {
    var mapped := SharedRun(call, b, base, prompts, MapBudget);
    Then(call, mapped, base, final(Join("\n\n", Stripped(mapped.calls))), ReduceBudget)
  }

  /** The first `j + 1` prompts are the first `j` followed by prompt `j`. */
  lemma SharedRunSnoc(call: Caller, b: Backend, base: nat, prompts: seq<string>, j: nat, budget: int)
    requires j < |prompts|
    ensures SharedRun(call, b, base, prompts[..j + 1], budget) ==
            Then(call, SharedRun(call, b, base, prompts[..j], budget), base, prompts[j], budget)
  {
    assert prompts[..j + 1][..j] == prompts[..j];
  }

  /** The stripped replies of one more call. */
  lemma StrippedSnoc(gens: seq<Generation>, g: Generation)
    ensures Stripped(gens + [g]) == Stripped(gens) + [Strip(g.reply)]
  {
    assert forall k :: 0 <= k < |gens| ==> (gens + [g])[k] == gens[k];
  }

  /** What one more call adds to the logs of a run. */
  lemma ThenLogs(call: Caller, run: Run, base: nat, prompt: string, budget: int,
                 sentBefore: seq<Request>, before: seq<Generation>, st: Step)
    requires st == StepOf(call, run.backend, base + |run.requests|, prompt, budget)
    ensures var next := Then(call, run, base, prompt, budget);
            && next.backend == st.backend
            && next.calls[|run.calls|].reply == st.text
            && sentBefore + next.requests == sentBefore + run.requests + st.requests
            && before + next.calls == before + run.calls + [Generation(run.backend, prompt, budget, st.text)]
            && Stripped(next.calls) == Stripped(run.calls) + [Strip(st.text)]
  {
    var g := Generation(run.backend, prompt, budget, st.text);
    AppendAssoc(sentBefore, run.requests, st.requests);
    AppendAssoc(before, run.calls, [g]);
    StrippedSnoc(run.calls, g);
  }

  // ----- What a run of calls promises -----

  /** What one call does to the client, as `generate` promises: one or two requests, and a
      client on Ollama stays there and asks only Ollama. */
  ghost predicate Shaped(call: Caller) {
    forall b, n, prompt, budget :: StepShaped(b, prompt, budget, StepOf(call, b, n, prompt, budget))
  }

  predicate StepShaped(b: Backend, prompt: string, budget: int, st: Step) {
    && 1 <= |st.requests| <= 2
    && (b == Ollama ==> st.backend == Ollama && st.requests == [Request(Ollama, prompt, budget)])
  }

  lemma GenerateShaped(net: Network)
    ensures Shaped(CallerOf(net))
  {
  }

  /** The calls `gens` were made with these prompts and this budget. */
  ghost predicate AskedWith(gens: seq<Generation>, prompts: seq<string>, budget: int) {
    && |gens| == |prompts|
    && forall j :: 0 <= j < |gens| ==> gens[j].prompt == prompts[j] && gens[j].maxTokens == budget
  }

  /** No call that started on Ollama is followed by one that started on Groq. */
  ghost predicate Sticky(gens: seq<Generation>) {
    forall i, k :: 0 <= i < k < |gens| && gens[i].start == Ollama ==> gens[k].start == Ollama
  }

  /** Each call of a shared run is asked its own prompt, in order; the first starts on `b`;
      once a call starts on Ollama the client stays there; every call sends one or two
      requests; and a client that starts on Ollama sends nothing to Groq. */
  lemma {:induction false} SharedRunShape(call: Caller, b: Backend, base: nat, prompts: seq<string>, budget: int)
    requires Shaped(call)
    ensures var r := SharedRun(call, b, base, prompts, budget);
            && AskedWith(r.calls, prompts, budget)
            && (r.calls != [] ==> r.calls[0].start == b)
            && Sticky(r.calls)
            && (forall k :: 0 <= k < |r.calls| && r.calls[k].start == Ollama ==> r.backend == Ollama)
            && (b == Ollama ==> r.backend == Ollama)
            && |r.calls| <= |r.requests| <= 2 * |r.calls|
            && (b == Ollama ==> forall q :: q in r.requests ==> q.backend == Ollama)
  {
    if prompts != [] {
      var init := prompts[..|prompts| - 1];
      SharedRunShape(call, b, base, init, budget);
      var s := SharedRun(call, b, base, init, budget);
      var r := SharedRun(call, b, base, prompts, budget);
      var st := StepOf(call, s.backend, base + |s.requests|, prompts[|prompts| - 1], budget);
      assert StepShaped(s.backend, prompts[|prompts| - 1], budget, st);
      assert r.calls == s.calls + [Generation(s.backend, prompts[|prompts| - 1], budget, st.text)];
      assert r.requests == s.requests + st.requests;
      forall j | 0 <= j < |r.calls|
        ensures r.calls[j].prompt == prompts[j] && r.calls[j].maxTokens == budget
      {
        if j < |s.calls| {
          assert r.calls[j] == s.calls[j];
        }
      }
      forall i, k | 0 <= i < k < |r.calls| && r.calls[i].start == Ollama
        ensures r.calls[k].start == Ollama
      {
        assert r.calls[i] == s.calls[i];
        if k < |s.calls| {
          assert r.calls[k] == s.calls[k];
        }
      }
      forall k | 0 <= k < |r.calls| && r.calls[k].start == Ollama
        ensures r.backend == Ollama
      {
        if k < |s.calls| {
          assert r.calls[k] == s.calls[k];
        }
      }
      if b == Ollama {
        forall q | q in r.requests
          ensures q.backend == Ollama
        {
          if q !in s.requests {
            assert q in st.requests;
          }
        }
      }
    }
  }

  /** The calls of one run: one per prompt with the map budget, then the reduce call on the
      joined stripped replies; the first started on `b`, all on the same client. */
  ghost predicate WeeklyCalls(calls: seq<Generation>, prompts: seq<string>, final: string -> string, b: Backend) {
    && |calls| == |prompts| + 1
    && AskedWith(calls[..|prompts|], prompts, MapBudget)
    && calls[|prompts|].prompt == final(Join("\n\n", Stripped(calls[..|prompts|])))
    && calls[|prompts|].maxTokens == ReduceBudget
    && calls[0].start == b
    && Sticky(calls)
  }

  /** The weekly run makes the calls `WeeklyCalls` describes. */
  lemma WeeklyRunCalls(call: Caller, b: Backend, base: nat, prompts: seq<string>, final: string -> string)
    requires Shaped(call)
    ensures WeeklyCalls(WeeklyRun(call, b, base, prompts, final).calls, prompts, final, b)
  {
    var mapped := SharedRun(call, b, base, prompts, MapBudget);
    SharedRunShape(call, b, base, prompts, MapBudget);
    var r := WeeklyRun(call, b, base, prompts, final);
    var g := r.calls[|prompts|];
    assert r.calls == mapped.calls + [g];
    assert r.calls[..|prompts|] == mapped.calls;
    assert g.start == mapped.backend;
    forall i, k | 0 <= i < k < |r.calls| && r.calls[i].start == Ollama
      ensures r.calls[k].start == Ollama
    {
      assert r.calls[i] == mapped.calls[i];
      if k < |prompts| {
        assert r.calls[k] == mapped.calls[k];
      }
    }
  }

  /** A run on n items makes ceil(n / 2) map calls and one reduce call, and a client that
      starts on Ollama starts every one of them there. */
  lemma WeeklyCallCount<T>(items: seq<T>, render: seq<T> -> string, final: string -> string, b: Backend,
                           calls: seq<Generation>)
    requires WeeklyCalls(calls, ChunkPrompts(items, render), final, b)
    ensures |calls| == (|items| + 1) / 2 + 1
    ensures b == Ollama ==> forall k :: 0 <= k < |calls| ==> calls[k].start == Ollama
  {
    ChunkCount(|items|);
    if b == Ollama {
      forall k | 0 < k < |calls|
        ensures calls[k].start == Ollama
      {
        assert calls[0].start == Ollama;
      }
    }
  }

  // ----- The job -----

  /** What `send_digest(articles=[summary], is_weekly=True)` sends on the service built from
      `env`, with `statusAt` the mail transport: the mail log goes from `mailBefore` to
      `mailAfter`. */
  ghost predicate WeeklyMailed(env: map<string, string>, subscribers: seq<Subscription>, statusAt: nat -> Option<int>,
                               summary: string, today: string, year: string, m: Markup,
                               mailBefore: seq<Message>, mailAfter: seq<Message>, result: DigestResult)
  {
    var subs := ActiveSubscribers(subscribers);
    && (subs == [] ==> result == NothingToSend && mailAfter == mailBefore)
    && (subs != [] ==>
          var msgs := BatchMessages(Getenv(env, "SENDER_EMAIL", DefaultSenderEmail),
                                    Getenv(env, "SENDER_NAME", DefaultSenderName), subs,
                                    DigestSubject(true, today), EmailHtml(m, [SummaryEntry(summary)], true, year));
          && mailAfter == SentUntilRaise(statusAt, mailBefore, msgs)
          && result == if FirstRaise(statusAt, |mailBefore|, |msgs|) < |msgs| then Raised else AllBatchesSent)
  }

  /** The weekly run on the digest articles of `rows`. */
  function RunOf(p: Prompts, call: Caller, rows: seq<Row>, today: string, b: Backend, base: nat): Run {
    WeeklyRun(call, b, base, ChunkPrompts(DigestArticles(rows), SummaryRender(p)), SummaryFinal(p, today))
  }

  /** On the real transports a run past the fetch makes ceil(n / 2) map calls for its n digest
      articles, each asked its chunk prompt within 700 tokens, then one reduce call within 1800
      on the joined stripped replies, all on one client that never goes back from Ollama. */
  lemma RunOfCalls(p: Prompts, net: Network, rows: seq<Row>, today: string, b: Backend, base: nat)
    ensures var calls := RunOf(p, CallerOf(net), rows, today, b, base).calls;
            && WeeklyCalls(calls, ChunkPrompts(DigestArticles(rows), SummaryRender(p)), SummaryFinal(p, today), b)
            && |calls| == (|DigestArticles(rows)| + 1) / 2 + 1
  {
    var prompts := ChunkPrompts(DigestArticles(rows), SummaryRender(p));
    GenerateShaped(net);
    WeeklyRunCalls(CallerOf(net), b, base, prompts, SummaryFinal(p, today));
    WeeklyCallCount(DigestArticles(rows), SummaryRender(p), SummaryFinal(p, today), b,
                    RunOf(p, CallerOf(net), rows, today, b, base).calls);
  }

  /** A run past the fetch: the calls of the weekly run of `rows` on a client that started on
      `b`, then the digest with the final reply, its heading rule applied. */
  ghost predicate Delivered(p: Prompts, env: map<string, string>, call: Caller, rows: seq<Row>,
                            subscribers: seq<Subscription>, statusAt: nat -> Option<int>,
                            today: string, year: string, m: Markup, b: Backend,
                            before: seq<Generation>, after: seq<Generation>,
                            sentBefore: seq<Request>, sentAfter: seq<Request>,
                            mailBefore: seq<Message>, mailAfter: seq<Message>, end: WeeklyEnd)
  {
    var w := RunOf(p, call, rows, today, b, |sentBefore|);
    && after == before + w.calls
    && sentAfter == sentBefore + w.requests
    && end.Digest?
    && WeeklyMailed(env, subscribers, statusAt, WithHeader(w.calls[|w.calls| - 1].reply, today), today, year, m,
                    mailBefore, mailAfter, end.result)
  }

  /** What `run_weekly_summary` does when `call` is `generate` on the transports: `rows` is
      what `fetch_recent(conn, days=7)` returns, `subscribers` the subscription table,
      `statusAt` the mail transport. The LLM log goes from `before` to `after`, its requests
      from `sentBefore` to `sentAfter`, the mail log from `mailBefore` to `mailAfter`. */
  ghost predicate WeeklyRan(p: Prompts, env: map<string, string>, call: Caller, rows: seq<Row>,
                            subscribers: seq<Subscription>, statusAt: nat -> Option<int>,
                            today: string, year: string, m: Markup,
                            before: seq<Generation>, after: seq<Generation>,
                            sentBefore: seq<Request>, sentAfter: seq<Request>,
                            mailBefore: seq<Message>, mailAfter: seq<Message>, end: WeeklyEnd)
  {
    var backend := ParseBackend(BackendSetting(env));
    // The email service is built first; without credentials nothing else happens.
    && (!HasCredentials(env) ==>
          end == ServiceFailed && after == before && sentAfter == sentBefore && mailAfter == mailBefore)
    // A backend name the client rejects, "gemini" included, stops the run before any read.
    && (HasCredentials(env) && backend.None? ==>
          end == LlmFailed && after == before && sentAfter == sentBefore && mailAfter == mailBefore)
    // Nothing from the last week: no call and no mail.
    && (HasCredentials(env) && backend.Some? && rows == [] ==>
          end == NothingNew && after == before && sentAfter == sentBefore && mailAfter == mailBefore)
    // Otherwise the weekly run is made and its summary goes out.
    && (HasCredentials(env) && backend.Some? && rows != [] ==>
          Delivered(p, env, call, rows, subscribers, statusAt, today, year, m, backend.value,
                    before, after, sentBefore, sentAfter, mailBefore, mailAfter, end))
  }

  /** One `llm.generate(prompt, max_tokens=budget)` on the shared client, `call` being
      `generate` on its transports: the run `run` so far, which started after the requests
      `sentBefore` and the calls `before`, becomes `next`. */
  method Ask(llm: LLM, prompt: string, budget: int, ghost call: Caller,
             ghost run: Run, ghost sentBefore: seq<Request>, ghost before: seq<Generation>)
    returns (reply: string, ghost next: Run)
    requires Serves(llm.net, call)
    requires llm.backend == run.backend
    requires llm.net.sent == sentBefore + run.requests && llm.net.generations == before + run.calls
    modifies llm, llm.net
    ensures next == Then(call, run, |sentBefore|, prompt, budget)
    ensures llm.backend == next.backend
    ensures llm.net.sent == sentBefore + next.requests && llm.net.generations == before + next.calls
    ensures reply == next.calls[|run.calls|].reply
    ensures Stripped(next.calls) == Stripped(run.calls) + [Strip(reply)]
  {
    ghost var st := StepOf(call, llm.backend, |llm.net.sent|, prompt, budget);
    assert Answers(llm.net, call, llm.backend, |llm.net.sent|, prompt, budget);
    ThenLogs(call, run, |sentBefore|, prompt, budget, sentBefore, before, st);
    reply := llm.Generate(prompt, budget);
    next := Then(call, run, |sentBefore|, prompt, budget);
  }

  /** The chunk that starts at `i` is chunk `j`, and its prompt is prompt `j`. */
  lemma ChunkPromptAt<T>(items: seq<T>, render: seq<T> -> string, i: nat, j: nat)
    requires i < |items| && j <= |Chunks(items)|
    requires Chunks(items) == Chunks(items)[..j] + Slices(items[i..], ChunkSize)
    ensures var end := if i + ChunkSize < |items| then i + ChunkSize else |items|;
            && j < |ChunkPrompts(items, render)|
            && ChunkPrompts(items, render)[j] == render(items[i..end])
            && Chunks(items) == Chunks(items)[..j + 1] + Slices(items[end..], ChunkSize)
  {
    SlicesFrom(items, ChunkSize, i, j);
  }

  /** One pass of the map loop: the chunk of two that starts at `i`, which is chunk `j`, is
      rendered and answered; the loop goes on at `end`. */
  method SummariseChunk<T>(items: seq<T>, render: seq<T> -> string, llm: LLM, budget: int, ghost call: Caller,
                           i: nat, ghost j: nat, ghost b: Backend,
                           ghost run: Run, ghost sentBefore: seq<Request>, ghost before: seq<Generation>)
    returns (reply: string, end: nat, ghost next: Run)
    requires i < |items| && j <= |Chunks(items)|
    requires Chunks(items) == Chunks(items)[..j] + Slices(items[i..], ChunkSize)
    requires Serves(llm.net, call)
    requires run == SharedRun(call, b, |sentBefore|, ChunkPrompts(items, render)[..j], budget)
    requires llm.backend == run.backend
    requires llm.net.sent == sentBefore + run.requests && llm.net.generations == before + run.calls
    modifies llm, llm.net
    ensures end == if i + ChunkSize < |items| then i + ChunkSize else |items|
    ensures j < |Chunks(items)| && Chunks(items) == Chunks(items)[..j + 1] + Slices(items[end..], ChunkSize)
    ensures next == SharedRun(call, b, |sentBefore|, ChunkPrompts(items, render)[..j + 1], budget)
    ensures llm.backend == next.backend
    ensures llm.net.sent == sentBefore + next.requests && llm.net.generations == before + next.calls
    ensures Stripped(next.calls) == Stripped(run.calls) + [Strip(reply)]
  {
    ChunkPromptAt(items, render, i, j);
    end := if i + ChunkSize < |items| then i + ChunkSize else |items|;
    var prompt := render(items[i..end]);
    reply, next := Ask(llm, prompt, budget, call, run, sentBefore, before);
    SharedRunSnoc(call, b, |sentBefore|, ChunkPrompts(items, render), j, budget);
  }

  /** The map loop of the weekly job: the prompt `render` builds from each chunk of two is
      answered by the one client `llm` within `budget` tokens, and the replies are collected
      stripped. */
  method SummariseChunks<T>(items: seq<T>, render: seq<T> -> string, llm: LLM, budget: int, ghost call: Caller)
    returns (replies: seq<string>)
    requires Serves(llm.net, call)
    modifies llm, llm.net
    ensures var r := SharedRun(call, old(llm.backend), |old(llm.net.sent)|, ChunkPrompts(items, render), budget);
            && llm.backend == r.backend
            && llm.net.sent == old(llm.net.sent) + r.requests
            && llm.net.generations == old(llm.net.generations) + r.calls
            && replies == Stripped(r.calls)
  {
    ghost var before := llm.net.generations;
    ghost var sentBefore := llm.net.sent;
    ghost var b := llm.backend;
    ghost var run := Run(b, [], []);
    ghost var j := 0;
    var out: seq<string> := [];
    var i := 0;
    while i < |items|
      invariant 0 <= i <= |items| && j <= |Chunks(items)|
      invariant Chunks(items) == Chunks(items)[..j] + Slices(items[i..], ChunkSize)
      invariant run == SharedRun(call, b, |sentBefore|, ChunkPrompts(items, render)[..j], budget)
      invariant llm.backend == run.backend
      invariant llm.net.sent == sentBefore + run.requests && llm.net.generations == before + run.calls
      invariant out == Stripped(run.calls)
    {
      var reply, end;
      reply, end, run := SummariseChunk(items, render, llm, budget, call, i, j, b, run, sentBefore, before);
      out := out + [Strip(reply)];
      i := end;
      j := j + 1;
    }
    assert Chunks(items) == Chunks(items)[..j];
    assert ChunkPrompts(items, render)[..j] == ChunkPrompts(items, render);
    replies := out;
  }

  /** The map and reduce steps on one client: the chunk prompts `render` builds, answered within
      700 tokens each, then the prompt `final` builds from the joined chunk summaries, answered
      within 1800; `reply` is the final reply. */
  method MapReduceShared<T>(items: seq<T>, render: seq<T> -> string, final: string -> string, llm: LLM,
                            ghost call: Caller)
    returns (reply: string)
    requires Serves(llm.net, call)
    modifies llm, llm.net
    ensures var w := WeeklyRun(call, old(llm.backend), |old(llm.net.sent)|, ChunkPrompts(items, render), final);
            && llm.net.sent == old(llm.net.sent) + w.requests
            && llm.net.generations == old(llm.net.generations) + w.calls
            && reply == w.calls[|w.calls| - 1].reply
  {
    ghost var before := llm.net.generations;
    ghost var sentBefore := llm.net.sent;
    ghost var mapped := SharedRun(call, llm.backend, |sentBefore|, ChunkPrompts(items, render), MapBudget);
    var summaries := SummariseChunks(items, render, llm, MapBudget, call);
    var prompt := final(Join("\n\n", summaries));
    ghost var w;
    reply, w := Ask(llm, prompt, ReduceBudget, call, mapped, sentBefore, before);
  }

  /** `send_digest`'s contract, for the one summary article and the weekly flag. */
  lemma DigestMailed(svc: EmailService, env: map<string, string>, subscribers: seq<Subscription>, summary: string,
                     now: int, today: string, year: string, m: Markup,
                     mailBefore: seq<Message>, mailAfter: seq<Message>, result: DigestResult)
    requires svc.senderEmail == Getenv(env, "SENDER_EMAIL", DefaultSenderEmail)
    requires svc.senderName == Getenv(env, "SENDER_NAME", DefaultSenderName)
    requires DigestSent(svc, subscribers, [], Some([SummaryEntry(summary)]), true, now, today, year, m,
                        mailBefore, mailAfter, result)
    ensures WeeklyMailed(env, subscribers, svc.mailjet.statusAt, summary, today, year, m, mailBefore, mailAfter, result)
  {
  }

  /** `email_service.send_digest(articles=[summary], is_weekly=True)` on the service built
      from `env`. */
  method SendWeekly(svc: EmailService, env: map<string, string>, table: SubscriptionTable, summary: string,
                    now: int, today: string, year: string, m: Markup)
    returns (result: DigestResult)
    requires svc.senderEmail == Getenv(env, "SENDER_EMAIL", DefaultSenderEmail)
    requires svc.senderName == Getenv(env, "SENDER_NAME", DefaultSenderName)
    modifies svc.mailjet
    ensures WeeklyMailed(env, table.rows, svc.mailjet.statusAt, summary, today, year, m,
                         old(svc.mailjet.sent), svc.mailjet.sent, result)
  {
    ghost var mailBefore := svc.mailjet.sent;
    result := SendDigest(svc, table, [], Some([SummaryEntry(summary)]), true, now, today, year, m);
    DigestMailed(svc, env, table.rows, summary, now, today, year, m, mailBefore, svc.mailjet.sent, result);
  }

  /** The summary of the fetched `rows` on the shared client, its heading rule applied. */
  method SummariseRows(p: Prompts, rows: seq<Row>, today: string, llm: LLM, ghost call: Caller)
    returns (summary: string)
    requires Serves(llm.net, call)
    modifies llm, llm.net
    ensures var w := RunOf(p, call, rows, today, old(llm.backend), |old(llm.net.sent)|);
            && llm.net.sent == old(llm.net.sent) + w.requests
            && llm.net.generations == old(llm.net.generations) + w.calls
            && summary == WithHeader(w.calls[|w.calls| - 1].reply, today)
  {
    var articles := PrepareDigest(rows);
    summary := MapReduceShared(articles, SummaryRender(p), SummaryFinal(p, today), llm, call);
    summary := WithHeader(summary, today);
  }

  /** The part of the run after a non-empty fetch: the summary on the shared client, then the
      digest on the service built from `env`. */
  method SummariseAndSend(p: Prompts, m: Markup, env: map<string, string>, svc: EmailService, llm: LLM,
                          table: SubscriptionTable, rows: seq<Row>, now: int, today: string, year: string,
                          ghost call: Caller)
    returns (end: WeeklyEnd)
    requires svc.senderEmail == Getenv(env, "SENDER_EMAIL", DefaultSenderEmail)
    requires svc.senderName == Getenv(env, "SENDER_NAME", DefaultSenderName)
    requires Serves(llm.net, call)
    modifies svc.mailjet, llm, llm.net
    ensures Delivered(p, env, call, rows, table.rows, svc.mailjet.statusAt, today, year, m, old(llm.backend),
                      old(llm.net.generations), llm.net.generations, old(llm.net.sent), llm.net.sent,
                      old(svc.mailjet.sent), svc.mailjet.sent, end)
  {
    var summary := SummariseRows(p, rows, today, llm, call);
    var result := SendWeekly(svc, env, table, summary, now, today, year, m);
    end := Digest(result);
  }

  /** `run_weekly_summary()`. `store` stands for the article database, `table` for the
      subscription table, `now` for the clock, `today` for `date.today().isoformat()` (also the
      digest's date) and `year` for the current year. */
  method RunWeeklySummary(p: Prompts, m: Markup, env: map<string, string>, mailjet: Mailjet, net: Network,
                          store: ArticleStore, table: SubscriptionTable, now: int, today: string, year: string)
    returns (end: WeeklyEnd)
    modifies mailjet, net
    ensures WeeklyRan(p, env, CallerOf(net), store.FetchRecent(now, 7), table.rows, mailjet.statusAt, today, year, m,
                      old(net.generations), net.generations, old(net.sent), net.sent,
                      old(mailjet.sent), mailjet.sent, end)
  {
    var svc := NewEmailService(env, mailjet);
    if svc == null {
      return ServiceFailed;
    }
    var llm := NewLLM(BackendSetting(env), net);
    if llm == null {
      return LlmFailed;
    }
    var rows := store.FetchRecent(now, 7);
    if rows == [] {
      return NothingNew;
    }
    CallerServes(net);
    end := SummariseAndSend(p, m, env, svc, llm, table, rows, now, today, year, CallerOf(net));
  }

  /** The digest a run sends starts, after its heading, with the summary title, whatever the
      model replied. */
  lemma SummaryTitled(reply: string, today: string)
    ensures StartsWith(SummaryEntry(WithHeader(reply, today)).content, SummaryTitle)
  {
  }
}
