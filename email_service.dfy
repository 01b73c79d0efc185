/** `EmailService`: the Mailjet credentials check, the two reads behind a digest, the HTML body
    built one article block at a time, the digest sent in batches of fifty recipients and the
    single confirmation mail. The Mailjet endpoint is an oracle that answers the request with
    index `i` with `statusAt(i)`: a status code, or None when the client raises. */
module Mail {
  import opened Wrappers
  import opened Text
  import opened Sorting
  import opened Database
  import opened Subscriptions

  // ----- The environment and the service -----

  /** `os.getenv(key, default)`: the default only when the variable is unset. */
  function Getenv(env: map<string, string>, key: string, default: string): string {
    if key in env then env[key] else default
  }

  /** `os.getenv(key)`. */
  function GetenvOpt(env: map<string, string>, key: string): Option<string> {
    if key in env then Some(env[key]) else None
  }

  const DefaultSenderEmail: string := "your-verified-sender@domain.com"
  const DefaultSenderName: string := "AI News Weekly Digest"

  /** `{"Email": ..., "Name": ...}` in a To list. */
  datatype Recipient = Recipient(email: string, name: string)

  /** One message of a `send.create` call. */
  datatype Message = Message(fromEmail: string, fromName: string, to: seq<Recipient>, subject: string, html: string)

  /** The Mailjet client: the status of each request, and every request made. */
  class Mailjet {
    const statusAt: nat -> Option<int>
    var sent: seq<Message>

    constructor(statusAt: nat -> Option<int>)
      ensures this.statusAt == statusAt && sent == []
    {
      this.statusAt := statusAt;
      sent := [];
    }

    /** `self.mailjet.send.create(data=...)`: None when it raises. */
    method Send(m: Message) returns (status: Option<int>)
      modifies this
      ensures sent == old(sent) + [m]
      ensures status == statusAt(|old(sent)|)
    {
      status := statusAt(|sent|);
      sent := sent + [m];
    }
  }

  class EmailService {
    const senderEmail: string
    const senderName: string
    const mailjet: Mailjet

    constructor(senderEmail: string, senderName: string, mailjet: Mailjet)
      ensures this.senderEmail == senderEmail && this.senderName == senderName && this.mailjet == mailjet
    {
      this.senderEmail := senderEmail;
      this.senderName := senderName;
      this.mailjet := mailjet;
    }
  }

  /** The credentials `EmailService()` insists on. */
  predicate HasCredentials(env: map<string, string>) {
    Truthy(GetenvOpt(env, "MAILJET_API_KEY")) && Truthy(GetenvOpt(env, "MAILJET_API_SECRET"))
  }

  /** `EmailService()`: null where the constructor raises its ValueError, which is when the key
      or the secret is unset or empty; otherwise the sender comes from the environment or the
      defaults. */
  method NewEmailService(env: map<string, string>, mailjet: Mailjet) returns (svc: EmailService?)
    ensures svc == null <==> !HasCredentials(env)
    ensures svc != null ==> && fresh(svc) && svc.mailjet == mailjet
                            && svc.senderEmail == Getenv(env, "SENDER_EMAIL", DefaultSenderEmail)
                            && svc.senderName == Getenv(env, "SENDER_NAME", DefaultSenderName)
  {
    if !HasCredentials(env) {
      return null;
    }
    svc := new EmailService(Getenv(env, "SENDER_EMAIL", DefaultSenderEmail),
                            Getenv(env, "SENDER_NAME", DefaultSenderName), mailjet);
  }

  // ----- Recipients -----

  /** `email.split('@')[0]`. */
  function LocalPart(email: string): (r: string)
    ensures StartsWith(email, r) && '@' !in r
    ensures |r| < |email| ==> email[|r|] == '@'
  {
    SplitHead(email, '@');
    Split(email, '@')[0]
  }

  /** The first part of a split is the text up to the first separator. */
  lemma {:induction false} SplitHead(s: string, sep: char)
    ensures StartsWith(s, Split(s, sep)[0])
    ensures |Split(s, sep)[0]| < |s| ==> s[|Split(s, sep)[0]|] == sep
  {
    if s != [] && s[0] != sep {
      SplitHead(s[1..], sep);
      assert s == [s[0]] + s[1..];
    }
  }

  /** The name a recipient is greeted by is everything before the first '@'. */
  lemma LocalPartOfAddress(local: string, domain: string)
    requires '@' !in local
    ensures LocalPart(local + "@" + domain) == local
  {
    var e := local + "@" + domain;
    assert e[..|local|] == local;
    assert e[|local|] == '@';
  }

  function RecipientOf(email: string): Recipient {
    Recipient(email, LocalPart(email))
  }

  /** The To list of one batch, in batch order. */
  function Recipients(batch: seq<Subscription>): (r: seq<Recipient>)
    ensures |r| == |batch|
    ensures forall i :: 0 <= i < |batch| ==> r[i] == RecipientOf(batch[i].email)
  {
    seq(|batch|, i requires 0 <= i < |batch| => RecipientOf(batch[i].email))
  }

  // ----- The two reads -----

  predicate IsActive(s: Subscription) { s.isActive }

  /** `get_active_subscribers`: the active rows, in table order. */
  function ActiveSubscribers(rows: seq<Subscription>): (r: seq<Subscription>)
    ensures forall s :: s in r ==> s in rows && s.isActive
    ensures forall s :: s in rows && s.isActive ==> s in r
  {
    FilterMembers(rows, IsActive);
    Filter(rows, IsActive)
  }

  /** A `NewsArticle` row: title, content, url, source, published date and creation time. */
  datatype NewsArticle = NewsArticle(title: string, content: string, url: string, source: string,
                                     publishedDate: int, createdAt: int)

  function CreatedKey(a: NewsArticle): real {
    a.createdAt as real
  }

  function CreatedSince(cutoff: int): NewsArticle -> bool {
    (a: NewsArticle) => a.createdAt >= cutoff
  }

  /** `get_latest_articles(days)` at clock reading `now`: the articles created at or after
      `now - days`, newest first. */
  function LatestArticles(news: seq<NewsArticle>, now: int, days: int): (r: seq<NewsArticle>)
    ensures NonIncreasing(r, CreatedKey)
    ensures forall a :: a in r ==> a in news && a.createdAt >= now - days * SecondsPerDay
    ensures forall a :: a in news && a.createdAt >= now - days * SecondsPerDay ==> a in r
  {
    var kept := Filter(news, CreatedSince(now - days * SecondsPerDay));
    FilterMembers(news, CreatedSince(now - days * SecondsPerDay));
    var r := SortDesc(kept, CreatedKey);
    SameMembers(r, kept);
    r
  }

  // ----- The HTML body -----

  /** The three fields an article block shows. */
  datatype Entry = Entry(title: string, content: string, source: string)

  function EntryOf(a: NewsArticle): Entry {
    Entry(a.title, a.content, a.source)
  }

  function Entries(articles: seq<NewsArticle>): (r: seq<Entry>)
    ensures |r| == |articles|
    ensures forall i :: 0 <= i < |articles| ==> r[i] == EntryOf(articles[i])
  {
    seq(|articles|, i requires 0 <= i < |articles| => EntryOf(articles[i]))
  }

  /** The fixed markup around the parts the body fills in: the document head and style sheet
      up to the heading's label, and the footer before and after the year. */
  datatype Markup = Markup(head: string, footerOpen: string, footerClose: string)

  /** "weekly" or "daily", as the heading and the subject say it. */
  function DigestLabel(isWeekly: bool): string {
    if isWeekly then WeeklyLabel else DailyLabel
  }

  const WeeklyLabel: string := "الأسبوعي"
  const DailyLabel: string := "اليومي"

  // The fixed text of an article block, around its title, summary and source.
  const BlockOpen: string := "\n            <div class=\"article\">\n                <div class=\"title\">"
  const TitleClose: string := "</div>\n                <div class=\"summary\">"
  const SummaryClose: string := "</div>\n                <div class=\"source\">المصدر: "
  const BlockClose: string := "</div>\n            </div>\n            "

  /** The block of one article. */
  function Block(e: Entry): string {
    BlockOpen + e.title + TitleClose + e.content + SummaryClose + e.source + BlockClose
  }

  /** The blocks of `items`, in order. */
  function Blocks(items: seq<Entry>): string {
    ConcatMap(items, Block)
  }

  const HeadClose: string := "</h1>\n        "

  function HtmlHead(m: Markup, isWeekly: bool): string {
    m.head + DigestLabel(isWeekly) + HeadClose
  }

  function HtmlFooter(m: Markup, year: string): string {
    m.footerOpen + year + m.footerClose
  }

  /** What `format_email_content` returns. */
  function EmailHtml(m: Markup, items: seq<Entry>, isWeekly: bool, year: string): string {
    HtmlHead(m, isWeekly) + Blocks(items) + HtmlFooter(m, year)
  }

  /** Article `i`'s block stands between the blocks of the articles before it and those of
      the articles after it. */
  lemma BlocksInOrder(items: seq<Entry>, i: nat)
    requires i < |items|
    ensures Blocks(items) == Blocks(items[..i]) + Block(items[i]) + Blocks(items[i + 1..])
  {
    ConcatMapAt(items, i, Block);
  }

  /** The heading says weekly or daily, and the two labels differ. */
  lemma DigestLabelled(m: Markup, items: seq<Entry>, year: string)
    ensures StartsWith(EmailHtml(m, items, true, year), m.head + WeeklyLabel)
    ensures StartsWith(EmailHtml(m, items, false, year), m.head + DailyLabel)
    ensures DigestLabel(true) != DigestLabel(false)
  {
    assert |DigestLabel(true)| != |DigestLabel(false)|;
    var w := m.head + WeeklyLabel;
    assert EmailHtml(m, items, true, year)[..|w|] == w;
    var d := m.head + DailyLabel;
    assert EmailHtml(m, items, false, year)[..|d|] == d;
  }

  /** `format_email_content(articles, is_weekly)`; `year` is `datetime.now().year`. */
  method FormatEmailContent(m: Markup, items: seq<Entry>, isWeekly: bool, year: string) returns (html: string)
    ensures html == EmailHtml(m, items, isWeekly, year)
  {
    var body := "";
    var i := 0;
    while i < |items|
      invariant 0 <= i <= |items| && body == Blocks(items[..i])
    {
      ConcatMapSnoc(items, i, Block);
      body := body + Block(items[i]);
      i := i + 1;
    }
    assert items[..i] == items;
    html := HtmlHead(m, isWeekly) + body + HtmlFooter(m, year);
  }

  // ----- send_simple_email -----

  /** `send_simple_email(to_email, subject, html_body)`: one message to one recipient; true
      exactly when Mailjet answers 200, false on any other status or when it raises. */
  method SendSimpleEmail(svc: EmailService, to: string, subject: string, body: string) returns (ok: bool)
    modifies svc.mailjet
    ensures svc.mailjet.sent == old(svc.mailjet.sent) + [Message(svc.senderEmail, svc.senderName, [RecipientOf(to)], subject, body)]
    ensures ok <==> svc.mailjet.statusAt(|old(svc.mailjet.sent)|) == Some(200)
  {
    var status := svc.mailjet.Send(Message(svc.senderEmail, svc.senderName, [RecipientOf(to)], subject, body));
    ok := status == Some(200);
  }

  // ----- send_digest -----

  /** `batch_size = 50`. */
  const BatchSize: nat := 50

  /** `subscribers[i:i+50]` for `i in range(0, len(subscribers), 50)`. */
  function Batches(subs: seq<Subscription>): (r: seq<seq<Subscription>>)
    ensures forall j :: 0 <= j < |r| ==> 1 <= |r[j]| <= BatchSize
  {
    Slices(subs, BatchSize)
  }

  /** There are ceil(n / 50) batches, and every subscriber is in exactly one of them, in
      order. */
  lemma BatchesCover(subs: seq<Subscription>)
    ensures |Batches(subs)| == (|subs| + BatchSize - 1) / BatchSize
    ensures Flatten(Batches(subs)) == subs
  {
    BatchCount(|subs|);
    SlicesPartition(subs, BatchSize);
  }

  lemma {:induction false} BatchCount(n: nat)
    ensures SliceCount(n, BatchSize) == (n + BatchSize - 1) / BatchSize
  {
    if n > BatchSize {
      BatchCount(n - BatchSize);
    }
  }

  /** The subject line: the digest's label and the date. */
  function DigestSubject(isWeekly: bool, date: string): string {
    "ملخص أخبار الذكاء الاصطناعي " + DigestLabel(isWeekly) + " - " + date
  }

  /** The message for each batch: the same sender, subject and body, the batch as To list. */
  function DigestMessages(fromEmail: string, fromName: string, batches: seq<seq<Subscription>>,
                          subject: string, html: string): (r: seq<Message>)
    ensures |r| == |batches|
    ensures forall j :: 0 <= j < |batches| ==> r[j] == Message(fromEmail, fromName, Recipients(batches[j]), subject, html)
  {
    seq(|batches|, j requires 0 <= j < |batches| => Message(fromEmail, fromName, Recipients(batches[j]), subject, html))
  }

  /** The index of the first of `n` requests from `base` on whose send raises, or `n`. */
  function FirstRaise(statusAt: nat -> Option<int>, base: nat, n: nat): (r: nat)
    ensures r <= n
    ensures forall k :: base <= k < base + r ==> statusAt(k).Some?
    ensures r < n ==> statusAt(base + r).None?
  {
    if n == 0 then 0
    else
      var r := FirstRaise(statusAt, base, n - 1);
      if r < n - 1 then r else if statusAt(base + n - 1).None? then n - 1 else n
  }

  /** None of the `j` sends from request `base` on raised. */
  predicate NoneRaised(statusAt: nat -> Option<int>, base: nat, j: nat) {
    forall q :: base <= q < base + j ==> statusAt(q).Some?
  }

  /** The first raise is at `j` when every request before `j` answered and request `j`, if
      there is one, raised. */
  lemma {:induction false} FirstRaiseAt(statusAt: nat -> Option<int>, base: nat, n: nat, j: nat)
    requires j <= n
    requires NoneRaised(statusAt, base, j)
    requires j < n ==> statusAt(base + j).None?
    ensures FirstRaise(statusAt, base, n) == j
  {
    if n > 0 && j < n {
      if j < n - 1 {
        FirstRaiseAt(statusAt, base, n - 1, j);
      } else {
        FirstRaiseAt(statusAt, base, n - 1, n - 1);
      }
    } else if n > 0 {
      FirstRaiseAt(statusAt, base, n - 1, n - 1);
    }
  }

  /** The articles a digest shows: the given ones, or the latest of 7 days (weekly) or 1 day. */
  function DigestItems(news: seq<NewsArticle>, articles: Option<seq<Entry>>, isWeekly: bool, now: int): seq<Entry> {
    match articles
    case Some(a) => a
    case None => Entries(LatestArticles(news, now, if isWeekly then 7 else 1))
  }

  /** How a digest ended: nothing to send, every batch sent (whatever its status), or a send
      that raised, which `send_digest` passes on. */
  datatype DigestResult = NothingToSend | AllBatchesSent | Raised

  /** What `send_digest` does, given the requests made before: the messages it sends and how
      it ends. */
  predicate DigestSent(svc: EmailService, rows: seq<Subscription>, news: seq<NewsArticle>,
                       articles: Option<seq<Entry>>, isWeekly: bool, now: int, date: string,
                       year: string, m: Markup, before: seq<Message>, after: seq<Message>, result: DigestResult)
    reads svc, svc.mailjet
  {
    var items := DigestItems(news, articles, isWeekly, now);
    var subs := ActiveSubscribers(rows);
    if items == [] || subs == [] then after == before && result == NothingToSend
    else
      var msgs := BatchMessages(svc.senderEmail, svc.senderName, subs,
                                DigestSubject(isWeekly, date), EmailHtml(m, items, isWeekly, year));
      && after == SentUntilRaise(svc.mailjet.statusAt, before, msgs)
      && result == (if FirstRaise(svc.mailjet.statusAt, |before|, |msgs|) < |msgs| then Raised else AllBatchesSent)
  }

  /** One step of the walk over the batches: the batch that starts at subscriber `i` is batch
      `j`, and its message is message `j`. */
  lemma BatchWalk(fromEmail: string, fromName: string, subs: seq<Subscription>, subject: string, html: string,
                  i: nat, j: nat)
    requires i < |subs| && j <= |Batches(subs)|
    requires Batches(subs) == Batches(subs)[..j] + Slices(subs[i..], BatchSize)
    ensures var msgs := BatchMessages(fromEmail, fromName, subs, subject, html);
            var end := if i + BatchSize < |subs| then i + BatchSize else |subs|;
            && j < |msgs|
            && msgs[j] == Message(fromEmail, fromName, Recipients(subs[i..end]), subject, html)
            && Batches(subs) == Batches(subs)[..j + 1] + Slices(subs[end..], BatchSize)
  {
    SlicesFrom(subs, BatchSize, i, j);
  }

  /** The messages of a digest to `subs`: one per batch. */
  function BatchMessages(fromEmail: string, fromName: string, subs: seq<Subscription>, subject: string, html: string): seq<Message> {
    DigestMessages(fromEmail, fromName, Batches(subs), subject, html)
  }

  /** The requests a walk over `msgs` makes from `before` on: up to and including the first
      that raises, or all of them. */
  function SentUntilRaise(statusAt: nat -> Option<int>, before: seq<Message>, msgs: seq<Message>): seq<Message> {
    var k := FirstRaise(statusAt, |before|, |msgs|);
    before + (if k < |msgs| then msgs[..k + 1] else msgs)
  }

  /** Where the batch loop stands: subscribers before `i` have been sent to in the first `j`
      batches, none of those sends raised, and `sent` holds their messages after `before`. */
  ghost predicate Walked(msgs: seq<Message>, subs: seq<Subscription>, statusAt: nat -> Option<int>,
                         before: seq<Message>, sent: seq<Message>, i: nat, j: nat)
  {
    && i <= |subs| && |msgs| == |Batches(subs)| && j <= |msgs|
    && NoneRaised(statusAt, |before|, j)
    && Batches(subs) == Batches(subs)[..j] + Slices(subs[i..], BatchSize)
    && sent == before + msgs[..j]
  }

  /** Where the batch that starts at subscriber `i` ends: `subscribers[i:i+50]` stops at
      the end of the list. */
  function BatchEnd(n: nat, i: nat): (end: nat)
    requires i < n
    ensures i < end <= n && end - i <= BatchSize
  {
    if i + BatchSize < n then i + BatchSize else n
  }

  lemma WalkLength(msgs: seq<Message>, subs: seq<Subscription>, statusAt: nat -> Option<int>,
                   before: seq<Message>, sent: seq<Message>, i: nat, j: nat)
    requires Walked(msgs, subs, statusAt, before, sent, i, j)
    ensures |sent| == |before| + j
  {
  }

  /** The message a turn of the batch loop sends is the next batch's. */
  lemma WalkSend(fromEmail: string, fromName: string, subs: seq<Subscription>, subject: string, html: string,
                  statusAt: nat -> Option<int>, before: seq<Message>, sent: seq<Message>, i: nat, j: nat)
    requires i < |subs|
    requires Walked(BatchMessages(fromEmail, fromName, subs, subject, html), subs, statusAt, before, sent, i, j)
    ensures var msgs := BatchMessages(fromEmail, fromName, subs, subject, html);
            && j < |msgs|
            && sent + [Message(fromEmail, fromName, Recipients(subs[i..BatchEnd(|subs|, i)]), subject, html)]
               == before + msgs[..j + 1]
  {
    var msgs := BatchMessages(fromEmail, fromName, subs, subject, html);
    BatchWalk(fromEmail, fromName, subs, subject, html, i, j);
    LogSnoc(before, msgs, j, Message(fromEmail, fromName, Recipients(subs[i..BatchEnd(|subs|, i)]), subject, html));
  }

  /** A turn of the batch loop whose send succeeds moves the walk on by one batch. */
  lemma WalkOn(fromEmail: string, fromName: string, subs: seq<Subscription>, subject: string, html: string,
               statusAt: nat -> Option<int>, before: seq<Message>, sent: seq<Message>, i: nat, j: nat)
    requires i < |subs| && statusAt(|before| + j).Some?
    requires Walked(BatchMessages(fromEmail, fromName, subs, subject, html), subs, statusAt, before, sent, i, j)
    ensures Walked(BatchMessages(fromEmail, fromName, subs, subject, html), subs, statusAt, before,
                   sent + [Message(fromEmail, fromName, Recipients(subs[i..BatchEnd(|subs|, i)]), subject, html)],
                   BatchEnd(|subs|, i), j + 1)
  {
    var msgs := BatchMessages(fromEmail, fromName, subs, subject, html);
    NoneRaisedStep(statusAt, |before|, j);
    BatchWalk(fromEmail, fromName, subs, subject, html, i, j);
    LogSnoc(before, msgs, j, Message(fromEmail, fromName, Recipients(subs[i..BatchEnd(|subs|, i)]), subject, html));
  }

  lemma NoneRaisedStep(statusAt: nat -> Option<int>, base: nat, j: nat)
    requires NoneRaised(statusAt, base, j) && statusAt(base + j).Some?
    ensures NoneRaised(statusAt, base, j + 1)
  {
  }

  /** The batch loop ends, with no send raised, once every subscriber had a batch. */
  lemma WalkDone(fromEmail: string, fromName: string, subs: seq<Subscription>, subject: string, html: string,
                 statusAt: nat -> Option<int>, before: seq<Message>, sent: seq<Message>, i: nat, j: nat)
    requires i >= |subs|
    requires Walked(BatchMessages(fromEmail, fromName, subs, subject, html), subs, statusAt, before, sent, i, j)
    ensures var msgs := BatchMessages(fromEmail, fromName, subs, subject, html);
            FirstRaise(statusAt, |before|, |msgs|) == |msgs| && sent == before + msgs
  {
    var msgs := BatchMessages(fromEmail, fromName, subs, subject, html);
    assert subs[i..] == [];
    assert Batches(subs) == Batches(subs)[..j];
    assert msgs[..j] == msgs;
    FirstRaiseAt(statusAt, |before|, |msgs|, j);
  }

  /** The batch loop of `send_digest`: one message per batch, in order, whatever status comes
      back, until a send raises. */
  method SendBatches(mailjet: Mailjet, fromEmail: string, fromName: string, subs: seq<Subscription>,
                     subject: string, html: string)
    returns (raised: bool)
    modifies mailjet
    ensures var msgs := BatchMessages(fromEmail, fromName, subs, subject, html);
            && (raised <==> FirstRaise(mailjet.statusAt, |old(mailjet.sent)|, |msgs|) < |msgs|)
            && mailjet.sent == SentUntilRaise(mailjet.statusAt, old(mailjet.sent), msgs)
  {
    ghost var before := mailjet.sent;
    ghost var msgs := BatchMessages(fromEmail, fromName, subs, subject, html);
    ghost var statusAt := mailjet.statusAt;
    var i := 0;
    ghost var j := 0;
    while i < |subs|
      invariant Walked(msgs, subs, statusAt, before, mailjet.sent, i, j)
      invariant mailjet.statusAt == statusAt
      decreases |subs| - i
    {
      var end := if i + BatchSize < |subs| then i + BatchSize else |subs|;
      assert end == BatchEnd(|subs|, i);
      WalkLength(msgs, subs, statusAt, before, mailjet.sent, i, j);
      ghost var sent := mailjet.sent;
      var status := mailjet.Send(Message(fromEmail, fromName, Recipients(subs[i..end]), subject, html));
      WalkSend(fromEmail, fromName, subs, subject, html, statusAt, before, sent, i, j);
      if status.None? {
        FirstRaiseAt(statusAt, |before|, |msgs|, j);
        return true;
      }
      WalkOn(fromEmail, fromName, subs, subject, html, statusAt, before, sent, i, j);
      i := end;
      j := j + 1;
    }
    WalkDone(fromEmail, fromName, subs, subject, html, statusAt, before, mailjet.sent, i, j);
    raised := false;
  }

  /** `send_digest(articles, is_weekly)`; `now` is the clock for the default read, `date` is
      today as `%Y-%m-%d` and `year` the current year. */
  method SendDigest(svc: EmailService, table: SubscriptionTable, news: seq<NewsArticle>,
                    articles: Option<seq<Entry>>, isWeekly: bool, now: int, date: string, year: string, m: Markup)
    returns (result: DigestResult)
    modifies svc.mailjet
    ensures DigestSent(svc, table.rows, news, articles, isWeekly, now, date, year, m,
                       old(svc.mailjet.sent), svc.mailjet.sent, result)
  {
    var items := DigestItems(news, articles, isWeekly, now);
    var subs := ActiveSubscribers(table.rows);
    if items == [] {
      return NothingToSend;
    }
    if subs == [] {
      return NothingToSend;
    }
    var html := FormatEmailContent(m, items, isWeekly, year);
    var raised := SendBatches(svc.mailjet, svc.senderEmail, svc.senderName, subs, DigestSubject(isWeekly, date), html);
    result := if raised then Raised else AllBatchesSent;
  }
}
