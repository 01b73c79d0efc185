# AI News Chat: a Dafny model of its core

AI News Chat gathers AI news from three sites (smol.ai, TechCrunch, Futurepedia), keeps the
articles in SQLite with a sentence embedding each, answers questions about them with a
retrieve-then-map-reduce pipeline over an LLM (Groq with a fallback to a local Ollama), writes
daily and weekly summaries, and mails the weekly digest to subscribers through Mailjet. A React
front end renders the chat and the model's answers.

This project models the code's own decisions, one Dafny module per source file:

- `Articles`, `Retrieval`: the two-level stable ranking by source priority, and `retrieve`
  (threshold, rerank, top k, and its fail-soft branches).
- `QA`, `Weekly`: the chunked map-reduce of `answer`, `summary_today` and the weekly job, the
  per-source cap, the sentinel replies and the digest header, with every LLM call logged.
- `Llm`: the client's backend field and its one-way Groq-to-Ollama fallback; `generate` never
  raises.
- `Database`, `Embeddings`: the URL-unique article table and its two reads; the float32 byte
  layout of an embedding; the lazily loaded model.
- `Mail`: the credential check, `format_email_content`, the batches of fifty in `send_digest`,
  and `send_simple_email`.
- `EmailRules`, `Subscriptions`, `Api`, `SubscriberView`, `Cleanup`: the two address checks and
  `clean_email` written out as predicates, the subscribe and unsubscribe transitions of the
  Gradio handlers and of the HTTP endpoints, the subscriber report, and the cleanup job.
- `ToolAgent`: `int(k)`, and the formatting of tool search results.
- `AppView`, `ChatView`: `formatAiResponse` as a datatype, `parseEmojis`, `isArabic`, and the
  chat page's state.
- `Scraped`, `SmolAi`, `TechCrunch`, `Futurepedia`: what each spider follows and yields.
- `Wrappers`, `Text`, `Sorting`: Python's and JavaScript's string operations that the code relies
  on (`strip`, `trim`, `replace`, `split`, `join`, slicing), a stable descending sort, and
  filtering and slicing of lists.

Everything foreign is an input or an oracle. This covers database rows, similarity scores, LLM
and Mailjet replies, the text that CSS selectors return, and the clock. Objects whose fields the
source changes are classes: the article table, the subscription tables, the LLM client and its
transports, the Mailjet client, the model cache and the chat page. Their methods state the whole
new state, and the logs on the transports (requests sent, generations, messages) record what
was asked of the outside world.

`ensure_source_diversity` appears twice in the source, in `aggregator/qa.py` and in
`run_weekly_summary.py`, with the same body. It is modelled once, in `QA`. The weekly job also
builds its digest articles the way `summary_today` does, so it uses `QA.DigestArticles`.

## Model

| member | source | states |
|---|---|---|
| Articles.GroupBySource | aggregator/retrieval.py:22-25 | the grouping loop yields the sources in first-appearance order (dictionary order), each mapped to exactly that source's articles in input order |
| Articles.SourcesMembers | aggregator/retrieval.py:22-25 | a source is a key of the grouping exactly when it has at least one article |
| Articles.ConcatGroupsContiguous | aggregator/retrieval.py:36-45 | emitting whole groups of distinct sources one after another leaves each source's articles in one contiguous block |
| Articles.ConcatGroupsOfSource | aggregator/retrieval.py:36-45 | picking one source out of the emitted list gives exactly that source's (sorted) group, or nothing if the source was not emitted |
| Articles.ConcatGroupsPermutes | aggregator/retrieval.py:36-45 | emitting reordered groups gives a permutation of the articles of the emitted sources |
| Articles.ConcatGroupsSources | aggregator/retrieval.py:36-45 | when no emitted group is empty, the output lists its sources in emission order |
| Retrieval.PriorityOrderRanked | aggregator/retrieval.py:16-38 | the priority table is walked from the highest to the lowest priority, without repeats, and lists exactly the sources with non-zero priority |
| Retrieval.SortGroupOrder | aggregator/retrieval.py:28-34 | a group's sort is a permutation, non-increasing in similarity when every item has one and non-increasing in timestamp otherwise |
| Retrieval.SortGroupStable | aggregator/retrieval.py:31-34 | the sort is stable: items with equal keys keep their input order |
| Retrieval.SortGroupIdempotent | aggregator/retrieval.py:28-34 | sorting an already sorted group changes nothing |
| Retrieval.EmissionOrderCovers | aggregator/retrieval.py:38-45 | every source of the input is emitted exactly once, and nothing else is |
| Retrieval.EmissionOrderRanked | aggregator/retrieval.py:38-45 | along the emission order the source priority never goes up |
| Retrieval.RankedPermutes | aggregator/retrieval.py:23-47 | `sort_by_source_priority` returns a permutation of its input |
| Retrieval.RankedByPriority | aggregator/retrieval.py:16-45 | every smol.ai article precedes every TechCrunch article, which precedes every HuggingFace article, which precedes every other source |
| Retrieval.RankedContiguous | aggregator/retrieval.py:23-45 | the articles of each source form one contiguous block |
| Retrieval.RankedWithinSource | aggregator/retrieval.py:28-45 | within a source the output is that source's articles in the group sort order |
| Retrieval.RankedSourceOrder | aggregator/retrieval.py:38-45 | sources appear in emission order; the unlisted sources keep the order of their first appearance in the input |
| Retrieval.UnlistedPart | aggregator/retrieval.py:43-45 | the unlisted part of the emission order is the unlisted part of the input's sources |
| Retrieval.RankedIdempotent | aggregator/retrieval.py:13-47 | ranking a ranked list changes nothing |
| Retrieval.SortEachGroup | aggregator/retrieval.py:28-34 | the in-place sort loop replaces each group by its sorted version and keeps the keys |
| Retrieval.EmitListed | aggregator/retrieval.py:37-40 | the first emission loop concatenates, by priority, the groups of the listed sources that occur |
| Retrieval.EmitUnlisted | aggregator/retrieval.py:42-45 | the second emission loop appends the groups of the unlisted sources in dictionary order |
| Retrieval.SortBySourcePriority | aggregator/retrieval.py:13-47 | the method computes exactly the ranked order whose properties the lemmas above state |
| Retrieval.DecodeAll | aggregator/retrieval.py:63-67 | the vectors of all rows, one per row, or nothing as soon as one blob fails to decode |
| Retrieval.Survivors | aggregator/retrieval.py:79-92 | every result has a similarity of at least the threshold 0.15, and there are at most as many as rows |
| Retrieval.Similarities | aggregator/retrieval.py:77 | one score per stored vector, the score of the query against that vector |
| Retrieval.KeepAboveThreshold | aggregator/retrieval.py:80-92 | the scoring loop keeps, in row order, exactly the rows whose similarity reaches the threshold |
| Retrieval.Retrieve | aggregator/retrieval.py:49-111 | the method returns the specified result on every path, including the fail-soft ones |
| Retrieval.RetrieveAboveThreshold | aggregator/retrieval.py:81-83 | no result of `retrieve` has a similarity below the threshold |
| Retrieval.RetrieveTopK | aggregator/retrieval.py:95-98 | at most k results, and asking for fewer gives a prefix of the longer answer |
| Retrieval.RetrieveFailSoft | aggregator/retrieval.py:55-57 | no rows, a blob that fails to decode, or a query that fails to encode each give the empty list (also aggregator/retrieval.py lines 63-67, 70-74, 109-111) |
| Sorting.SortDesc | aggregator/retrieval.py:31-34 | `list.sort(key=..., reverse=True)`: the result is a permutation of the input, of the same length, with non-increasing keys |
| Sorting.SortDescStable | aggregator/retrieval.py:31-34 | the sort is stable: among the elements sharing any one key, the input order is kept |
| Sorting.SortDescSorted | aggregator/retrieval.py:31-34 | sorting a list already in non-increasing key order leaves it unchanged |
| Sorting.SortDescIdempotent | aggregator/qa.py:110 | sorting twice by the same key is sorting once (also run_weekly_summary.py:30) |
| Sorting.PyTake | aggregator/retrieval.py:98 | the slice `s[:k]` is a prefix of `s` of length min(k, len) for k >= 0, and drops the last -k elements for negative k |
| Sorting.PyTakePrefix | aggregator/retrieval.py:98 | a shorter slice is a prefix of a longer one |
| Sorting.Slices | aggregator/email_service.py:128-131 | `xs[i:i+size]` for `i in range(0, len(xs), size)`: ceil(n/size) slices, each of 1 to size elements |
| Sorting.SlicesPartition | aggregator/email_service.py:128-131 | the slices laid end to end give back the input: every element is in exactly one slice, in order |
| QA.Excerpt | aggregator/qa.py:21 | `content[:n] + "..."`: a prefix of the content of length min(n, len), then three dots; short content is kept whole (also aggregator/qa.py lines 94) |
| QA.FormatArticleForContext | aggregator/qa.py:13-23 | the context block: title, source and date lines, the author or "Unknown" when it is missing or empty, the content cut by `Excerpt` to 2000 characters then "...", and the URL line |
| QA.ContextExcerpt | aggregator/qa.py:20-21 | the context block holds a prefix of the content of at most 2000 characters, all of it when it is no longer, followed by "..." and the URL line |
| QA.FormatArticleForSummary | aggregator/qa.py:89-96 | the summary block: bullet title, source, the author or "Unknown", the content cut by `Excerpt` to 200 characters then "...", and the URL line |
| QA.SummaryExcerpt | aggregator/qa.py:93-94 | the summary block holds a prefix of the content of at most 200 characters, all of it when it is no longer, followed by "..." and the URL line |
| QA.Diversified | aggregator/qa.py:98-111 | the result of `ensure_source_diversity` is non-increasing in timestamp and takes nothing that was not in the input |
| QA.EnsureSourceDiversity | aggregator/qa.py:98-111 | the grouping loop, the capped `extend` loop and the in-place sort compute exactly that result (also run_weekly_summary.py:18-31) |
| QA.DiversifiedPerSource | aggregator/qa.py:100-107 | for each source the kept articles are, up to order, exactly that source's first `max_per_source` articles (also run_weekly_summary.py:20-27) |
| QA.DiversifiedCap | aggregator/qa.py:106-107 | at most `max_per_source` articles of any one source are kept (also run_weekly_summary.py:26-27) |
| QA.DiversifiedSmallSource | aggregator/qa.py:106-107 | a source with at most `max_per_source` articles keeps all of them |
| QA.CapShrinks | aggregator/qa.py:107 | the per-source slice keeps some of a group's articles and adds none |
| QA.Chunks | aggregator/qa.py:48-51 | the chunks `matches[i:i+2]` each hold one or two articles (also aggregator/qa.py lines 144-147) |
| QA.ChunksCover | aggregator/qa.py:50-51 | the chunks are consecutive and cover the articles exactly once, in order (also aggregator/qa.py lines 146-147) |
| QA.ChunkCount | aggregator/qa.py:50 | there are ceil(n/2) chunks, so ceil(n/2) map calls (also aggregator/qa.py lines 146) |
| QA.ChunkPrompts | aggregator/qa.py:50-63 | one prompt per chunk, the chunk's rendering, in chunk order (also aggregator/qa.py lines 146-149) |
| QA.Stripped | aggregator/qa.py:65 | the map replies are collected stripped, one per call (also aggregator/qa.py lines 151) |
| QA.GenerateFresh | aggregator/qa.py:64-80 | a call through a fresh `LLM(backend)`: nothing is sent when the constructor rejects the name, otherwise exactly one generation is logged (also aggregator/llm.py:11) |
| QA.MapChunks | aggregator/qa.py:49-65 | the map loop makes one call per chunk with the given budget, in chunk order, and returns the stripped replies (also aggregator/qa.py lines 145-151) |
| QA.Reduced | aggregator/qa.py:67-80 | the reduce call is made once, on the map replies joined by a blank line, with the reduce budget (also aggregator/qa.py lines 153-157) |
| QA.MapReduce | aggregator/qa.py:47-80 | the map calls over all chunks then exactly one reduce call, whose reply is returned; nothing is sent when the backend name is rejected (also aggregator/qa.py lines 143-157) |
| QA.ReplyOr | aggregator/qa.py:81-82 | an empty or whitespace-only reply is replaced by the fixed error text, any other is kept (also aggregator/qa.py lines 158-159) |
| QA.AnswerFrom | aggregator/qa.py:44-87 | no matches give the fixed "no relevant articles" reply with no call; a rejected backend gives the fixed error with no call; otherwise ceil(n/2) map calls with budget 900 and one reduce call with budget 1200, whose non-blank reply is the answer |
| QA.Answer | aggregator/qa.py:37-87 | `answer` is that flow over the articles `retrieve` returns |
| QA.RowArticles | aggregator/qa.py:125-135 | one article per fetched row, in row order |
| QA.WithHeader | aggregator/qa.py:161-163 | the result always starts with "WEEKLY AI NEWS SUMMARY"; a summary already starting with it is kept, any other gets the dated header and a blank line in front |
| QA.WithHeaderIdempotent | aggregator/qa.py:161-163 | applying the header rule twice is applying it once |
| QA.PrepareDigest | aggregator/qa.py:125-141 | the rows become articles, ranked by source priority, then capped at ten per source and sorted newest first (also run_weekly_summary.py:53-67) |
| QA.SummaryFrom | aggregator/qa.py:121-169 | no rows give the fixed "no news" reply with no call; a rejected backend gives the fixed error with no call; otherwise map calls with budget 700, one reduce call with budget 1800, and a non-blank reply gets the header rule |
| QA.SummaryToday | aggregator/qa.py:113-169 | `summary_today` is that flow over the rows of the last seven days |
| Weekly.CallerServes | aggregator/llm.py:46-59 | the caller the job uses answers every call as `LLM.generate` does on the same transports |
| Weekly.SharedRun | run_weekly_summary.py:72-77 | the map loop on one client makes exactly one call per chunk prompt |
| Weekly.WeeklyRun | run_weekly_summary.py:72-84 | the job makes one call per chunk prompt and then one reduce call |
| Weekly.SharedRunSnoc | run_weekly_summary.py:72-77 | one more pass of the map loop adds one call, on the client as the previous passes left it |
| Weekly.StrippedSnoc | run_weekly_summary.py:77 | one more reply adds its stripped text to the end of `chunk_summaries` |
| Weekly.ThenLogs | run_weekly_summary.py:76-84 | one call on the shared client logs one generation with its prompt and budget, adds its requests to the log, and leaves the client on the backend it ended on |
| Weekly.GenerateShaped | aggregator/llm.py:46-59 | each `generate` sends one or two requests, and a client on Ollama stays there and sends only to Ollama |
| Weekly.SharedRunShape | run_weekly_summary.py:40-77 | on one shared client the calls carry their chunk prompts and the 700 budget in order; the first starts on the configured backend; once Ollama is reached it is kept; every call sends one or two requests; a client that starts on Ollama never reaches Groq |
| Weekly.WeeklyRunCalls | run_weekly_summary.py:72-84 | the calls are the chunk prompts with budget 700, then one reduce call with budget 1800 on the stripped replies joined by a blank line, all on one client |
| Weekly.WeeklyCallCount | run_weekly_summary.py:70-78 | n digest articles make ceil(n/2) map calls plus one reduce call; a client that starts on Ollama starts every call there |
| Weekly.RunOfCalls | run_weekly_summary.py:53-84 | on the real transports a run past the fetch makes ceil(n/2) map calls for its n digest articles, then one reduce call |
| Weekly.Ask | run_weekly_summary.py:76-84 | one `llm.generate` on the shared client: the logs and the client's backend become what one more call of the run makes them, and the reply is that call's |
| Weekly.ChunkPromptAt | run_weekly_summary.py:72-75 | the chunk that starts at index 2j is chunk j, `articles[i:i+2]`, and its prompt is the j-th prompt |
| Weekly.SummariseChunk | run_weekly_summary.py:73-77 | one pass of the map loop renders the chunk at `i`, asks for it, and moves on to `i+2`, or to the end |
| Weekly.SummariseChunks | run_weekly_summary.py:71-78 | the map loop makes the calls of the shared run over all chunk prompts, and its stripped replies are `chunk_summaries` |
| Weekly.MapReduceShared | run_weekly_summary.py:69-84 | the map loop then the reduce call, on one client; the summary is the reduce call's reply |
| Weekly.DigestMailed | run_weekly_summary.py:91-99 | the digest is `send_digest` of the one summary article, with the weekly subject and markup |
| Weekly.SendWeekly | run_weekly_summary.py:91-99 | no active subscriber sends nothing; otherwise the batches go out, stopping at the first raise, and the result says whether one was raised (also aggregator/email_service.py:107-159) |
| Weekly.SummariseRows | run_weekly_summary.py:53-88 | the fetched rows become the digest articles; the summary is the reduce reply with the heading rule applied |
| Weekly.SummariseAndSend | run_weekly_summary.py:53-99 | past a non-empty fetch, the weekly run is made and its summary is mailed |
| Weekly.RunWeeklySummary | run_weekly_summary.py:33-104 | missing mail credentials stop the job before anything else; a backend name the client rejects, "gemini" included, stops it before the read; no rows from the last seven days give no call and no mail; otherwise the run is made and mailed |
| Weekly.SummaryTitled | run_weekly_summary.py:86-96 | the mailed summary always starts with "WEEKLY AI NEWS SUMMARY", whatever the model replied |
| Llm.ParseBackend | aggregator/llm.py:10-12 | the constructor accepts exactly "ollama" and "groq"; any other name, the default "gemini" of the callers included, is rejected |
| Llm.ParseBackendName | aggregator/llm.py:10-12 | every backend is accepted under its own name |
| Llm.ErrorText | aggregator/llm.py:57-59 | the text returned for a failure starts with "Error generating response: " |
| Llm.GenerateStep | aggregator/llm.py:14-59 | Ollama stays on Ollama and sends one request; Groq hands over to Ollama exactly when the key is missing or Groq raised an HTTP or value error; one or two requests with the caller's prompt and budget; a Groq reply is its stripped content; a fallback asks Ollama last and returns what Ollama gives |
| Llm.GenerateNeverRaises | aggregator/llm.py:47-59 | a raising transport never escapes `generate`: the text is the error text for what was raised |
| Llm.Network.PostOllama | aggregator/llm.py:14-23 | one request to Ollama added to the log with the prompt and `num_predict` budget; the reply is the transport's answer to that request |
| Llm.Network.PostGroq | aggregator/llm.py:25-43 | one request to Groq added to the log with the prompt and `max_tokens` budget; the reply is the transport's answer to that request |
| Llm.LLM.Generate | aggregator/llm.py:46-59 | the client's new backend, the new request log and the text are those `GenerateStep` gives; a client on Ollama stays there; one generation is logged |
| Llm.NewLLM | aggregator/llm.py:10-12 | a fresh client on the named backend, or none exactly when the name is rejected |
| Database.ArticleStore.InsertArticle | aggregator/database.py:7-39 | an item with a new URL is added at the end; an item whose URL is already stored (the UNIQUE constraint's IntegrityError, swallowed) leaves the table unchanged; URLs stay distinct |
| Database.InsertTwice | aggregator/database.py:29-39 | inserting the same item twice leaves the table as inserting it once |
| Database.ArticleStore.FetchRecent | aggregator/database.py:42-51 | exactly the stored rows published at or after `now - days*86400`, each once, newest first |
| Database.ArticleStore.FetchAll | aggregator/database.py:53-60 | every stored row, each once, newest first |
| Database.ArticleStore.RecentWithinAll | aggregator/database.py:42-60 | every recent row is among the rows of the full read |
| Embeddings.ToBytes | aggregator/embeddings.py:15-17 | `tobytes` gives four bytes per float32 word |
| Embeddings.FromBytes | aggregator/embeddings.py:20-21 | reading n words takes the first 4n bytes |
| Embeddings.BytesToVec | aggregator/embeddings.py:20-21 | `frombuffer(count=EMBED_DIM)` fails exactly when the blob is shorter than 4·EMBED_DIM bytes, and otherwise reads EMBED_DIM words |
| Embeddings.FromBytesToBytes | aggregator/embeddings.py:15-21 | decoding an encoding gives back the words, whatever bytes follow |
| Embeddings.ToBytesFromBytes | aggregator/embeddings.py:15-21 | encoding the words read from a buffer of exactly n words gives back the buffer |
| Embeddings.FromBytesPrefix | aggregator/embeddings.py:20-21 | only the first n words' bytes are read |
| Embeddings.DecodeEmbedding | aggregator/embeddings.py:15-21 | a stored EMBED_DIM-word embedding decodes to the same words |
| Embeddings.BytesToVecIgnoresTail | aggregator/embeddings.py:20-21 | bytes after the first 4·EMBED_DIM are ignored |
| Embeddings.EncodeDecoded | aggregator/embeddings.py:15-21 | a blob of exactly 4·EMBED_DIM bytes is the encoding of its decoding |
| Embeddings.ModelSlot.GetModel | aggregator/embeddings.py:8-12 | the model is loaded on the first call only; later calls return the same instance |
| Embeddings.ModelSlot.Embed | aggregator/embeddings.py:15-17 | the bytes of the cached model's vector for the text, four per word |
| Mail.Mailjet.Send | aggregator/email_service.py:151-182 | one request added to the Mailjet log; its status is the transport's answer for that request, none when the call raises |
| Mail.NewEmailService | aggregator/email_service.py:22-30 | the service is built exactly when both Mailjet credentials are set and non-empty; the sender address and name are the environment's or the defaults |
| Mail.LocalPart | aggregator/email_service.py:142-173 | `email.split('@')[0]` is the text before the first '@': a prefix of the address with no '@' in it |
| Mail.SplitHead | aggregator/email_service.py:142-173 | the first part of a split is the text up to the first separator |
| Mail.LocalPartOfAddress | aggregator/email_service.py:142-173 | the name a recipient is greeted by is the local part of the address |
| Mail.Recipients | aggregator/email_service.py:139-145 | one recipient per subscriber of the batch, in batch order, with the address and its local part |
| Mail.ActiveSubscribers | aggregator/email_service.py:44-53 | exactly the subscribers whose `is_active` is set |
| Mail.LatestArticles | aggregator/email_service.py:32-42 | exactly the articles created at or after the cutoff, newest first |
| Mail.Entries | aggregator/email_service.py:83-87 | one entry per article, title, content and source, in order |
| Mail.BlocksInOrder | aggregator/email_service.py:83-95 | each article's block stands between those of the articles before it and those after it |
| Mail.DigestLabelled | aggregator/email_service.py:67-80 | the heading names the weekly digest or the daily one, and the two labels differ |
| Mail.FormatEmailContent | aggregator/email_service.py:65-105 | the loop builds the head with the label, one block per article in order, then the footer with the year |
| Mail.SendSimpleEmail | aggregator/email_service.py:161-191 | one message to the one recipient is sent; the result is true exactly when Mailjet answers 200, false on any other status or when the call raises |
| Mail.Batches | aggregator/email_service.py:128-131 | each batch `subscribers[i:i+50]` holds one to fifty subscribers |
| Mail.BatchesCover | aggregator/email_service.py:128-131 | there are ceil(n/50) batches, and they hold every subscriber exactly once, in order |
| Mail.BatchCount | aggregator/email_service.py:130 | `range(0, n, 50)` has ceil(n/50) steps |
| Mail.DigestMessages | aggregator/email_service.py:132-150 | one message per batch with the same sender, subject and body, the batch as its To list |
| Mail.FirstRaise | aggregator/email_service.py:151-159 | the first send that raises, or the number of sends when none does: every send before it had a status |
| Mail.FirstRaiseAt | aggregator/email_service.py:151-159 | a send that raises after sends that all answered is the first raise |
| Mail.BatchWalk | aggregator/email_service.py:130-131 | the batch that starts at subscriber 50j is batch j, and the message sent for it is message j |
| Mail.BatchEnd | aggregator/email_service.py:131 | the batch that starts at `i` ends after at most fifty subscribers, at the end of the list at the latest |
| Mail.WalkLength | aggregator/email_service.py:130-151 | after j batches the log holds j more messages |
| Mail.WalkSend | aggregator/email_service.py:131-151 | the message a turn of the loop sends is the next batch's message |
| Mail.WalkOn | aggregator/email_service.py:151-155 | a send that answers, with any status, moves the loop on to the next batch |
| Mail.WalkDone | aggregator/email_service.py:130-155 | once every subscriber had a batch, every message was sent and none raised |
| Mail.SendBatches | aggregator/email_service.py:127-159 | one message per batch goes out in order, whatever status comes back, up to and including the first send that raises; the result says whether one raised |
| Mail.SendDigest | aggregator/email_service.py:107-159 | the given articles, or the latest of seven days (weekly) or one day; no articles or no active subscriber send nothing; otherwise the batches of the active subscribers get the digest with the weekly or daily subject and body, stopping at the first raise |
| EmailRules.ValidEmailOneAt | aggregator/subscription_ui.py:14-16 | an address the strict check accepts has exactly one '@', with something before it |
| EmailRules.AtOnlyAt | aggregator/subscription_ui.py:15 | in a full match of the strict pattern the pattern's '@' is the only one |
| EmailRules.ValidEmailNewline | aggregator/subscription_ui.py:15-16 | `$` also matches before a final newline: an address that matches is accepted with one trailing newline and refused with two |
| EmailRules.NoMatchEndingInNewline | aggregator/subscription_ui.py:15 | the pattern ends in letters, so no text ending in a newline matches it in full |
| EmailRules.StrictImpliesLoose | aggregator/subscription_ui.py:15 | every address the subscribe check accepts passes the unsubscribe check (also aggregator/subscription_ui.py lines 106) |
| EmailRules.LooseAcceptsMore | aggregator/subscription_ui.py:15 | the converse fails: "a b@c.d" passes the unsubscribe check and fails the subscribe check (also aggregator/subscription_ui.py lines 106) |
| EmailRules.StampLen | cleanup_invalid_emails.py:20 | the length of the `\d{2}:\d{2}:\d{2}\.\d+` stamp the text ends with, or 0 |
| EmailRules.StampLenMatches | cleanup_invalid_emails.py:20 | there is a computed stamp exactly when the text ends in one, and it starts where the pattern's match starts |
| EmailRules.TrailingAtLeast | cleanup_invalid_emails.py:20 | when the last m characters are digits there are at least m trailing digits |
| EmailRules.StampFreeParts | cleanup_invalid_emails.py:23 | the stamp is dropped from every part an '@' follows, and the last part is kept |
| EmailRules.CleanEmail | cleanup_invalid_emails.py:17-27 | the cleaned address holds only word characters and the characters '.' through '@' |
| EmailRules.KeptFilter | cleanup_invalid_emails.py:25 | removing every character outside the kept set leaves only kept characters |
| EmailRules.KeptUnstripped | cleanup_invalid_emails.py:25-26 | no kept character is whitespace, so the final `strip` removes nothing |
| EmailRules.CleanedAlphabet | cleanup_invalid_emails.py:14-27 | the cleaned address has no dash and no whitespace, so the strict check on it is the plain full match with no newline allowance |
| EmailRules.KeptAlphabet | cleanup_invalid_emails.py:14-25 | a text of kept characters has no dash and no whitespace, and the strict check on it is the full match |
| EmailRules.SplitJoin | cleanup_invalid_emails.py:23 | splitting a join of '@'-free parts on '@' gives the parts back |
| EmailRules.SplitPlain | cleanup_invalid_emails.py:23 | a text without '@' splits into itself |
| EmailRules.StampsBeforeAtRemoved | cleanup_invalid_emails.py:23 | the lookahead substitution keeps every '@', leaves the part after the last one untouched and drops from every other part the stamp it ends with |
| EmailRules.PrefixKeepsOut | cleanup_invalid_emails.py:23 | a prefix of an '@'-free text has no '@' |
| Subscriptions.Find | aggregator/subscription_ui.py:84-112 | `filter_by(email=email).first()` is the first row with the address, or none when no row has it |
| Subscriptions.SetActive | aggregator/subscription_ui.py:89-117 | only the found row changes: its flag is set, its address kept |
| Subscriptions.Subscribe | aggregator/subscription_ui.py:75-96 | an address the strict check refuses changes nothing; an active subscriber is told so and nothing changes; an inactive row is reactivated in place; an unknown address gets one new active row at the end; each with its message |
| Subscriptions.Unsubscribe | aggregator/subscription_ui.py:103-118 | an address the loose check refuses changes nothing; an unknown or inactive address is told it is not subscribed; an active one is deactivated in place |
| Subscriptions.SubscribeSubscribes | aggregator/subscription_ui.py:75-96 | a valid address is subscribed afterwards, whatever its state before |
| Subscriptions.SubscribeIdempotent | aggregator/subscription_ui.py:75-96 | subscribing twice is subscribing once, and the second time reports "already subscribed" |
| Subscriptions.UnsubscribeUnsubscribes | aggregator/subscription_ui.py:103-118 | an address the loose check accepts is not subscribed afterwards |
| Subscriptions.HandlersKeepOthers | aggregator/subscription_ui.py:75-118 | neither handler changes the row of another address; subscribing adds at most one row, at the end |
| Subscriptions.HandlersKeepDistinct | aggregator/subscription_ui.py:75-118 | both handlers keep the addresses unique |
| Subscriptions.FindAfterSet | aggregator/subscription_ui.py:89-116 | changing the found row keeps it the first row with its address |
| Subscriptions.FindAfterAppend | aggregator/subscription_ui.py:93-95 | a row added for an address no row had is the first for it |
| Subscriptions.FindFirst | aggregator/subscription_ui.py:84-112 | the first row with the address is what the lookup returns |
| Subscriptions.SubscriptionTable.SetActiveAt | aggregator/subscription_ui.py:89-117 | the table becomes the found row with its flag set, addresses staying unique |
| Subscriptions.SubscriptionTable.Add | aggregator/subscription_ui.py:93-95 | the table gains one new active row at the end, addresses staying unique |
| Subscriptions.HandleSubscribe | aggregator/subscription_ui.py:75-101 | the table and message become those `Subscribe` gives, and addresses stay unique |
| Subscriptions.HandleUnsubscribe | aggregator/subscription_ui.py:103-123 | the table and message become those `Unsubscribe` gives, and addresses stay unique |
| Api.Lookup | aggregator/api.py:33-65 | `filter_by(email=...).first()` is the first row with the address, or none when no row has it |
| Api.WithActive | aggregator/api.py:38-68 | only the found row changes, and only its active flag |
| Api.Subscribe | aggregator/api.py:29-59 | without Mailjet credentials every call fails, changing and sending nothing; an active subscriber gets "Already subscribed" and no mail; an inactive row is reactivated with one confirmation; an unknown address gets one new row and one confirmation (also aggregator/email_service.py:25-26) |
| Api.Unsubscribe | aggregator/api.py:61-72 | never mails; an unknown or inactive address is a 404 and changes nothing; an active one is set inactive |
| Api.LookupAfterSet | aggregator/api.py:38-68 | changing the found row keeps it the first row with its address |
| Api.LookupAfterAppend | aggregator/api.py:48-50 | a row added for an address no row had is the first for it |
| Api.LookupFirst | aggregator/api.py:33-65 | the first row with the address is what the lookup finds |
| Api.SubscribeActivates | aggregator/api.py:35-57 | with credentials the address is active afterwards, and a confirmation goes out exactly when it was not active before |
| Api.SubscribeIdempotent | aggregator/api.py:35-36 | a second subscribe is "Already subscribed", changes nothing and mails nothing |
| Api.UnsubscribeDeactivates | aggregator/api.py:66-70 | the address is inactive afterwards, and a second unsubscribe is a 404 |
| Api.ResubscribeReactivates | aggregator/api.py:37-70 | unsubscribing then subscribing reactivates the same row, adds none, and confirms once |
| Api.EndpointsKeepDistinct | aggregator/api.py:29-72 | both endpoints keep the addresses unique and leave the rows of other addresses alone |
| Api.SubscribeEndpoint | aggregator/api.py:29-59 | the table and reply become those `Subscribe` gives; the Mailjet log gains the one confirmation to the address exactly when `Subscribe` confirms |
| Api.UnsubscribeEndpoint | aggregator/api.py:61-72 | the table and reply become those `Unsubscribe` gives |
| SubscriberView.ActiveGroups | view_subscribers.py:40-46 | one grouped line per active row, with its address and times |
| SubscriberView.FormatDatetime | view_subscribers.py:25-29 | a missing time reads "N/A", any other its rendering |
| SubscriberView.ScreenCorrect | view_subscribers.py:52-64 | the screening loop keeps each admissible cleaned address once, in the valid list when the check accepts it and in the invalid list otherwise; every entry comes from a grouped line |
| SubscriberView.StepComplete | view_subscribers.py:57-64 | one more turn of the loop keeps every admissible address seen |
| SubscriberView.StepFromGroups | view_subscribers.py:57-64 | one more turn of the loop keeps every entry the cleaned line of some group |
| SubscriberView.AddressesSnoc | view_subscribers.py:59-64 | an entry whose address was not seen keeps the list's addresses distinct |
| SubscriberView.ByCreated | view_subscribers.py:67-68 | `sorted(key=created)` is a permutation in ascending order of first subscription |
| SubscriberView.ReportOfCorrect | view_subscribers.py:52-89 | on a non-empty grouping both lists hold admissible addresses split by the check, each once, each from a group, sorted by first subscription; every admissible cleaned address is in one of them |
| SubscriberView.ActiveRowsGrouped | view_subscribers.py:40-46 | every active row is one of the grouped lines |
| SubscriberView.SameListing | view_subscribers.py:67-68 | sorting keeps the entries and their addresses, without repeats |
| SubscriberView.DistinctAddressesPermuted | view_subscribers.py:67-68 | a reordering of a list with distinct addresses has distinct addresses |
| SubscriberView.ScreenLoop | view_subscribers.py:53-64 | the loop computes the screening specified by `Screen` |
| SubscriberView.ViewSubscribers | view_subscribers.py:31-92 | no active row gives the "no active subscribers" outcome; otherwise the report on the grouped lines |
| Cleanup.CleanupDeletesExactlyInvalid | cleanup_invalid_emails.py:39-47 | exactly the active rows whose cleaned address fails the strict check are deleted; inactive rows stay; the count is the number of rows gone |
| Cleanup.NothingDoomed | cleanup_invalid_emails.py:49-53 | without a row to delete every row is kept |
| Cleanup.FilterKeepsDistinct | cleanup_invalid_emails.py:39-47 | deleting rows keeps the addresses unique |
| Cleanup.Sweep | cleanup_invalid_emails.py:41-47 | the loop keeps the spared rows in order and counts the deleted ones |
| Cleanup.RemoveInvalidEmails | cleanup_invalid_emails.py:29-60 | the table and result become those `Cleaned` gives: deletions are committed when there are any, and a failing commit rolls every deletion back and raises |
| ToolAgent.Decimal | aggregator/tool_agent.py:24 | `str(n)` of a natural number is a non-empty run of digits (also aggregator/tool_agent.py lines 133) |
| ToolAgent.DecimalValue | aggregator/tool_agent.py:24 | the digits of `n` read back as `n` (also aggregator/tool_agent.py lines 133) |
| ToolAgent.ParseIntText | aggregator/tool_agent.py:24 | `int(str(n)) == n` for every integer (also aggregator/tool_agent.py lines 133) |
| ToolAgent.ParseDigits | aggregator/tool_agent.py:24 | a run of digits reads as its value (also aggregator/tool_agent.py lines 133) |
| ToolAgent.ParseSigned | aggregator/tool_agent.py:24 | a run of digits after a sign reads as its value, negated after a minus (also aggregator/tool_agent.py lines 133) |
| ToolAgent.DigitNotSpace | aggregator/tool_agent.py:24 | a digit is not whitespace, so `int` does not strip it (also aggregator/tool_agent.py lines 133) |
| ToolAgent.ParseStripped | aggregator/tool_agent.py:24 | a literal with nothing to strip is read as it stands (also aggregator/tool_agent.py lines 133) |
| ToolAgent.SignedLiteral | aggregator/tool_agent.py:24 | a stripped signed literal reads as its signed value (also aggregator/tool_agent.py lines 133) |
| ToolAgent.NotNumbers | aggregator/tool_agent.py:21-24 | "All", the empty text and a lone sign are not numbers, so `int` raises on them (also aggregator/tool_agent.py lines 130-133) |
| ToolAgent.LimitOf | aggregator/tool_agent.py:21-24 | no `k` or "All" searches without a limit; any other `k` is `int(k)`, and the call fails exactly when that raises (also aggregator/tool_agent.py lines 130-133) |
| ToolAgent.Pricing | aggregator/tool_agent.py:35-41 | the first tag that is a known pricing type, or "" exactly when no tag is one (also aggregator/tool_agent.py lines 141-146) |
| ToolAgent.BlocksSnoc | aggregator/tool_agent.py:30-45 | one more tool adds its own lines at the end (also aggregator/tool_agent.py lines 137-150) |
| ToolAgent.ToolNameLinesAppend | aggregator/tool_agent.py:30-45 | the "Tool: " lines of two runs of lines are those of each, in order |
| ToolAgent.NoToolNameLines | aggregator/tool_agent.py:30-45 | lines that do not start with "Tool: " name no tool |
| ToolAgent.ToolLinesNamed | aggregator/tool_agent.py:31-45 | only the first line of a tool's block names it (also aggregator/tool_agent.py lines 138-150) |
| ToolAgent.NameLines | aggregator/tool_agent.py:31 | one "Tool: name" line per tool, in result order (also aggregator/tool_agent.py lines 138) |
| ToolAgent.BlocksNamed | aggregator/tool_agent.py:30-47 | the reply names every tool once, in result order, and nothing else (also aggregator/tool_agent.py lines 137-151) |
| ToolAgent.BlocksLength | aggregator/tool_agent.py:30-45 | each tool takes four lines, a fifth when it has tags, and the empty line (also aggregator/tool_agent.py lines 137-150) |
| ToolAgent.TaggedTools | aggregator/tool_agent.py:43-44 | the tools with tags are some of the tools (also aggregator/tool_agent.py lines 148-149) |
| ToolAgent.FormatTools | aggregator/tool_agent.py:29-45 | the formatting loop builds the lines of every tool in order (also aggregator/tool_agent.py lines 136-150) |
| ToolAgent.RunSearch | aggregator/tool_agent.py:20-24 | the search with the limit `k` gives, or the `ValueError` that `int(k)` raised (also aggregator/tool_agent.py lines 129-133) |
| ToolAgent.SearchWithAgent | aggregator/tool_agent.py:126-154 | a bad `k` or a raising search gives the apology; no hits give the fixed message; otherwise every tool's lines joined by newlines |
| ToolAgent.ToolRun | aggregator/tool_agent.py:18-50 | the same flow, except that an exception is answered with "Error searching tools: " and its own text |
| AppView.IsArabic | frontend/src/App.js:39-42 | true exactly when some character lies in U+0600 to U+06FF (also frontend/src/ChatPage.js:15-17) |
| AppView.EmojisWellFormed | frontend/src/App.js:47-51 | every shortcode is non-empty ASCII and every emoji a non-empty run of non-ASCII characters |
| AppView.ReplaceEachAvoids | frontend/src/App.js:46-51 | shortcodes already replaced stay absent while the rest are replaced, and at the end none is left |
| AppView.ReplaceEachAbsent | frontend/src/App.js:46-51 | a text that lacks a character every pattern has is left as it is |
| AppView.AbsentChar | frontend/src/App.js:46-51 | a pattern with a character the text lacks does not occur in it |
| AppView.ReplaceAllKeepsOut | frontend/src/App.js:47 | a global replace by a text without `c` keeps a text free of `c` |
| AppView.ReplaceEachKeepsOut | frontend/src/App.js:46-51 | the five replacements introduce no ASCII character |
| AppView.ParseEmojis | frontend/src/App.js:44-52 | no shortcode survives; a text without a colon is left as it is; no ASCII character, a line break say, is introduced (also frontend/src/ChatPage.js:6-13) |
| AppView.EmojisReplaced | frontend/src/App.js:44-52 | the same three facts about the five replacements in order |
| AppView.SplitLines | frontend/src/App.js:56 | `split(/\r?\n/)` gives at least one line, none with a line feed, made of the text's own characters |
| AppView.DropCR | frontend/src/App.js:56 | dropping a line's final carriage return adds nothing, and a line without one is kept |
| AppView.SplitChars | frontend/src/App.js:56 | the pieces of a split are made of the text's own characters |
| AppView.SplitLinesJoin | frontend/src/App.js:56 | without carriage returns, joining the lines by line feeds gives the text back |
| AppView.BulletTexts | frontend/src/App.js:62-66 | one item per bullet line, in order: its markers dropped, trimmed, emojis parsed |
| AppView.RenderLines | frontend/src/App.js:71-76 | one rendered line per non-blank line, in order |
| AppView.FormatAiResponse | frontend/src/App.js:54-77 | the list layout is chosen exactly when more than two non-blank lines are bullets, and keeps exactly those, in order, without markers; otherwise every non-blank line is kept in order and marked as a bullet exactly when it is one |
| AppView.RenderedTextsAreLines | frontend/src/App.js:54-77 | no rendered text holds a line feed |
| AppView.OneLine | frontend/src/App.js:64-75 | a line feed-free line stays line feed-free once rendered |
| AppView.IndentedMarkerKept | frontend/src/App.js:58-64 | a bullet whose marker is indented keeps its marker: the marker pattern is applied before trimming, so only the whitespace goes |
| AppView.NumberedLine | frontend/src/App.js:58-64 | a line that starts with a number is a bullet and loses the number, so a paragraph that opens with a year loses the year |
| ChatView.DirectionOf | frontend/src/ChatPage.js:114 | a message renders right to left exactly when it is the assistant's and has an Arabic character; a user message is always left to right |
| ChatView.ChatPage.SetInput | frontend/src/ChatPage.js:146 | typing sets the box and changes nothing else |
| ChatView.ChatPage.SendMessage | frontend/src/ChatPage.js:39-64 | a blank box sends nothing and changes nothing; otherwise the question is sent as typed to the "groq" backend, the box is cleared, and the question and exactly one answer, the backend's response or the error text, are appended; the conversation stays well formed and not loading |
| ChatView.ConversationGrows | frontend/src/ChatPage.js:42-61 | a non-blank question and its answer extend a well-formed conversation |
| ChatView.ConversationDirections | frontend/src/ChatPage.js:114 | in a conversation questions render left to right and an answer right to left exactly when it has an Arabic letter |
| Scraped.CleanParts | aggregator/scrape/techcrunch_ai.py:56 | `[p.strip() for p in parts if p.strip()]` keeps at most one part per input part (also aggregator/scrape/futurepedia.py:44) |
| Scraped.CleanPartsClean | aggregator/scrape/techcrunch_ai.py:56 | every kept part is non-empty and stripped, and none is kept exactly when every part is blank (also aggregator/scrape/futurepedia.py:44, 49) |
| Scraped.CleanPartsAppend | aggregator/scrape/techcrunch_ai.py:56 | the kept parts keep their order: cleaning two runs of parts is cleaning them together (also aggregator/scrape/futurepedia.py:44) |
| Scraped.JoinedTextEmpty | aggregator/scrape/techcrunch_ai.py:56 | the joined text is empty exactly when every part is blank (also aggregator/scrape/futurepedia.py:49-50) |
| Scraped.JoinEnds | aggregator/scrape/techcrunch_ai.py:56 | a join of non-empty parts starts with the first part's first character and ends with the last part's last character |
| Scraped.JoinedTextStripped | aggregator/scrape/techcrunch_ai.py:56 | the joined text has no surrounding whitespace (also aggregator/scrape/futurepedia.py:49) |
| Scraped.TitleOf | aggregator/scrape/techcrunch_ai.py:48-77 | a title taken from two headings and stripped is stripped, and it is "(no title)" when neither heading has text (also aggregator/scrape/futurepedia.py:37, 55) |
| Scraped.Crawl | aggregator/scrape/techcrunch_ai.py:28-41 | the detail pages are followed in order, then the next listing page exactly when its link has text (also aggregator/scrape/futurepedia.py:23-31) |
| Scraped.FirstOf | aggregator/scrape/techcrunch_ai.py:48-50 | Python's `a or b or default`: the first of the two with text, else the default (also aggregator/scrape/futurepedia.py:37, 39-41) |
| SmolAi.RequestsFor | aggregator/scrape/smol_ai.py:25-34 | one request per followed link, in order, with the resolved URL and the link's date and title |
| SmolAi.FollowedOnly | aggregator/scrape/smol_ai.py:22-24 | every link kept by the filter has an `href` under "/issues/" |
| SmolAi.Parse | aggregator/scrape/smol_ai.py:16-34 | the loop yields the requests for exactly the links with an `href` under "/issues/", in page order |
| SmolAi.ParsedRequests | aggregator/scrape/smol_ai.py:22-34 | every request is for an issue page of the site, and a page without such links yields none |
| SmolAi.CollapseNewlines | aggregator/scrape/smol_ai.py:64 | `re.sub(r'\n+', '\n', s)` leaves no blank line, keeps the first character, changes nothing in a text without blank lines and adds no character |
| SmolAi.NoBlankLineSlice | aggregator/scrape/smol_ai.py:64 | a part of a text without blank lines has none either |
| SmolAi.TrimKeepsNoBlankLine | aggregator/scrape/smol_ai.py:64 | stripping a text without blank lines leaves none |
| SmolAi.CleanedContentShape | aggregator/scrape/smol_ai.py:61-76 | the cleaned content has no blank line and no surrounding whitespace, so the final `strip` changes nothing |
| SmolAi.RemovePhrasesSnoc | aggregator/scrape/smol_ai.py:62-63 | one more turn of the phrase loop removes one more phrase everywhere |
| SmolAi.RemovePhrasesAbsent | aggregator/scrape/smol_ai.py:62-63 | a text with none of the phrases is left as it is |
| SmolAi.CleanContentKeepsClean | aggregator/scrape/smol_ai.py:61-64 | content that is already clean, with no phrase, no blank line and nothing to strip, is kept as it is |
| SmolAi.CleanContent | aggregator/scrape/smol_ai.py:61-64 | the loop removes the eight phrases in turn, then collapses line-feed runs and strips |
| SmolAi.ParseIssue | aggregator/scrape/smol_ai.py:36-78 | the item has source "smol.ai", no author, the page URL and `code` texts; its title is the link's stripped title, "(no title)" when it has none; its time is the link's date read as ISO with "Z" as "+00:00", or the current time when it is missing or does not parse; its content is the first content block's text cleaned |
| TechCrunch.PresentLinks | aggregator/scrape/techcrunch_ai.py:28-32 | the links kept are non-empty and at most one per block |
| TechCrunch.PresentLinksExact | aggregator/scrape/techcrunch_ai.py:28-32 | each kept link is one of the page's, and every link with text is kept |
| TechCrunch.PresentLinksAppend | aggregator/scrape/techcrunch_ai.py:28-35 | the kept links keep page order |
| TechCrunch.ParseTagPage | aggregator/scrape/techcrunch_ai.py:21-41 | every request has a URL; the next tag page comes last and only when its link has text |
| TechCrunch.TagPageFollows | aggregator/scrape/techcrunch_ai.py:28-35 | every article request is for a link of the page, every link with text is requested, and a block without a link adds nothing |
| TechCrunch.RStrip | aggregator/scrape/techcrunch_ai.py:66 | `rstrip('Z')` removes exactly the trailing run of 'Z's |
| TechCrunch.Author | aggregator/scrape/techcrunch_ai.py:59-78 | the author link with text, else the byline, stripped; none exactly when neither has text |
| TechCrunch.ParseArticle | aggregator/scrape/techcrunch_ai.py:43-87 | no item exactly when the publication time is present and does not parse, which raises inside the `try`; otherwise an item with source "TechCrunch", the page URL and tags, the chosen stripped title, the author, the joined content, and the parsed time or the current time |
| TechCrunch.ArticleContent | aggregator/scrape/techcrunch_ai.py:53-56 | the content is stripped, empty exactly when every part it is cut from is blank, and the post-content parts are read only when the article-content selector finds nothing |
| TechCrunch.ArticleTitle | aggregator/scrape/techcrunch_ai.py:48-77 | the title is stripped, and it is "(no title)" when neither heading has text |
| Futurepedia.ParseToolIndex | aggregator/scrape/futurepedia.py:18-31 | one request per tool card and one more when the next-page link has text |
| Futurepedia.ToolIndexFollows | aggregator/scrape/futurepedia.py:21-31 | every card is followed in order at a tool page of the site; the next page comes last and only when its link has text |
| Futurepedia.ParseTool | aggregator/scrape/futurepedia.py:33-61 | the item has source "Futurepedia", no author, the current time and the page URL; its title is the first heading with text, stripped; the tags are recorded cleaned |
| Futurepedia.ToolContent | aggregator/scrape/futurepedia.py:39-59 | the content is the joined prose text when some prose part has text, and the stripped description when none has |
| Futurepedia.ToolTagsAndTitle | aggregator/scrape/futurepedia.py:37-55 | the tags are the non-blank tag texts, stripped; none exactly when every tag text is blank; the title is stripped and "(no title)" when neither heading has text |
| Text.Trim | aggregator/qa.py:65 | `strip`/`trim`: the middle of the text without its leading and trailing whitespace; empty exactly when the text is all whitespace (also frontend/src/App.js:56) |
| Text.TrimUnchanged | aggregator/scrape/techcrunch_ai.py:77 | a text that neither starts nor ends with whitespace is its own strip |
| Text.TrimIdempotent | aggregator/scrape/smol_ai.py:64-76 | stripping twice is stripping once |
| Text.JoinSnoc | aggregator/qa.py:68 | joining one more part adds the separator and the part at the end |
| Text.ReplaceAllAbsent | aggregator/scrape/smol_ai.py:63 | `replace` on a text without the pattern changes nothing |
| Text.ReplaceAllAvoids | frontend/src/App.js:47-51 | replacing a pattern by a text none of whose characters occurs in `q` leaves no occurrence of `q`, if `q` is the pattern or was absent before |
| Text.Split | aggregator/email_service.py:142 | `split` gives at least one piece, none holding the separator |
| Text.JoinSplit | aggregator/email_service.py:142 | joining the pieces of a split with the separator gives the text back |
| Text.Take | aggregator/qa.py:21 | `s[:n]` is a prefix of length min(n, len) |

## Left out

- Similarity scores, query vectors and the embedding model's output are inputs. The cosine
  similarity and sentence-transformers are foreign code, and floating point is not modelled.
  A similarity is a `real`, and an embedding is a sequence of 32-bit words.
- Prompt wording and the e-mail HTML are parameters: `QA.Prompts` and `Mail.Markup`. Only where
  the code's own text matters is it fixed: the header rule, the sentinel replies and the labels.
- LLM and Mailjet transports are oracles indexed by request number. This covers HTTP, JSON
  shapes and timeouts. Gemini is configured but has no backend, so the client rejects its name.
- The module-level `LLM(backend=os.getenv("LLM_BACKEND", "gemini"))` in
  `aggregator/email_service.py` is not modelled. It fails the constructor check whenever the
  variable is unset or names another backend, so importing the module raises before any of its
  code runs. `Weekly.RunWeeklySummary` models the job as if that import succeeded.
- `generate_arabic_summary` is not modelled: it calls a method `LLM` does not define.
- `send_weekly_digest` is left out. It is `send_digest(is_weekly=True)` on a fresh service, which
  `Mail.SendDigest` covers.
- Mail.SendBatches does not model `result.json()` in the error log of a non-200 reply raising.
  Such a raise would end the batch loop.
- Database: connections, the PRAGMA and the schema script are not modelled. The only error path
  modelled is the UNIQUE violation on insert, plus the failing commit in the cleanup job. The
  generic `except` branches of the Gradio handlers, which answer a fixed error text when the
  database fails, are not modelled.
- Database.ArticleStore.FetchRecent and FetchAll leave the order among rows with equal timestamps
  unstated, as SQL does.
- Mail.LatestArticles fixes one stable order among articles with equal `created_at` (their
  table order). `order_by(NewsArticle.created_at.desc())` leaves that order to the database,
  and `SendDigest` mails the digest in the order the model picks.
- SubscriberView.ActiveGroups takes the grouped lines in table order. The grouped query has no
  `ORDER BY`, so SQL leaves the order open (SQLite happens to return the groups by email). That
  order decides which raw address survives when two clean to the same text, whose times go
  with it, and the order of subscribers with equal creation times after the stable sort. The
  model follows table order only.
- The `/summarize`, `/chat` and `/scrape` endpoints of `aggregator/api.py` are not modelled. The
  first two wrap `summary_today` and `answer`, and the third starts a thread.
- `EmailStr` validation of the request body is not modelled: `Api` takes any address.
- Api assumes that the `Base`/`SessionLocal` names `aggregator/api.py` imports exist. The model
  follows the endpoints' branch logic over its own `Subscriber` table.
- Regular-expression classes `\d` and `\w` are ASCII only. Python's Unicode digits and letters
  are not modelled.
- ToolAgent.ParseInt models `int()` on ASCII digits with an optional sign and surrounding
  whitespace. It does not model underscores between digits, non-ASCII digits, or Unicode
  whitespace.
- ToolAgent.IntError writes the `ValueError` text with plain quotes. `repr`'s escaping of quotes
  and backslashes inside `k` is not modelled.
- The `KeyError` a result row without `name`, `url`, `blurb` or `tags` would raise is not
  modelled: a tool is a record with all four.
- `search_tools`, LangChain agent construction and `aggregator/tool_search.py` are not modelled.
  The search is an oracle.
- Date and time library calls (`fromisoformat`, `strftime`, `time.time`, `date.today`, `utcnow`)
  are inputs or oracles. ISO parsing is a function that may fail.
- `urljoin` and `response.follow` are modelled only as origin + absolute path. Dot segments,
  queries and relative links are not. TechCrunch links and next-page links are kept as the page
  gives them.
- Futurepedia.ParseToolIndex takes the next-page link as a given optional string. The first
  alternative of that selector, `a[aria-label="Go to next page"]`, has no `::attr(href)`, so the
  source yields the anchor's markup rather than its URL.
- SmolAi.RemovePhrases is modelled as written: phrases are removed in order. Removing one phrase
  can join text into a new occurrence of an earlier phrase, which is then left in place. No
  lemma claims that the content is free of every phrase.
- Logging is left out, and so are the spiders' outer `except` branches. In the model nothing
  inside those branches can raise, except the TechCrunch timestamp, which is modelled.
- ChatView.ChatPage.SendMessage runs the request to completion within the call. React's
  asynchronous state updates, a second send while loading, and a `response` field missing from
  the JSON are not modelled.
- JSX, CSS and `fetch` are not modelled. `formatAiResponse` returns a datatype.
- ChatPage.js repeats `parseEmojis` and `isArabic` from App.js character for character. They are
  modelled once, in `AppView`.
- Left out because they are wiring, scheduling or broken code:
  - `aggregator/scrape/base.py`, `aggregator/scheduler.py`, `aggregator/cli.py`,
    `aggregator/scraper.py` and `run_subscription.py`;
  - `aggregator/ui.py`, `frontend/src/SubscribePage.js` and `frontend/src/SummarizePage.js`;
  - `aggregator/send_daily_summary.py` and `init_db.py`, which call names that do not exist;
  - `aggregator/prompts.py`, which is unused templates.
