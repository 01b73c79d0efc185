/** The `/subscribe` and `/unsubscribe` endpoints of the HTTP API, over the `subscribers` table
    (`email` unique, `is_active` defaulting to true). Subscribing builds an `EmailService`
    before it looks at the row it found, and sends one confirmation mail whenever it activates
    an address. */
module Api {
  import opened Wrappers
  import opened Mail

  /** One row of `subscribers`: `email`, `is_active`, `subscribed_at`, `last_email_sent`. */
  datatype Subscriber = Subscriber(email: string, isActive: bool, subscribedAt: int, lastEmailSent: Option<int>)

  /** `email` is unique. */
  predicate EmailsDistinct(rows: seq<Subscriber>) {
    forall i, j :: 0 <= i < j < |rows| ==> rows[i].email != rows[j].email
  }

  /** `query(Subscriber).filter_by(email=email).first()`: the index of the first row with `email`. */
  function Lookup(rows: seq<Subscriber>, email: string): (r: Option<nat>)
    ensures r.Some? ==> r.value < |rows| && rows[r.value].email == email
    ensures r.Some? ==> forall j :: 0 <= j < r.value ==> rows[j].email != email
    ensures r.None? ==> forall j :: 0 <= j < |rows| ==> rows[j].email != email
  {
    if rows == [] then None
    else if rows[0].email == email then Some(0)
    else match Lookup(rows[1..], email)
      case Some(i) => Some(i + 1)
      case None => None
  }

  /** `Subscriber(email=email)` added at time `now`: active, never mailed. */
  function NewSubscriber(email: string, now: int): Subscriber {
    Subscriber(email, true, now, None)
  }

  /** What an endpoint answers: a JSON message, an HTTP error, or the `ValueError` of an
      `EmailService` without credentials, which escapes the handler. */
  datatype Reply = Ok(message: string) | HttpError(status: int, detail: string) | NoCredentials

  const AlreadySubscribed: string := "Already subscribed"
  const Reactivated: string := "Subscription reactivated"
  const SubscribedOk: string := "Subscribed successfully"
  const NotSubscribedDetail: string := "Email not subscribed"
  const UnsubscribedOk: string := "Unsubscribed successfully"

  const ConfirmationSubject: string := "Subscription Confirmed: AI News Aggregator"
  const ConfirmationBody: string := "<p>You have subscribed to our AI news. Thank you!</p>"

  /** The table after an endpoint ran, its reply, and whether it sent a confirmation. */
  datatype Outcome = Outcome(rows: seq<Subscriber>, reply: Reply, confirms: bool)

  /** `rows` with row `i` set active or inactive. */
  function WithActive(rows: seq<Subscriber>, i: nat, active: bool): (r: seq<Subscriber>)
    requires i < |rows|
    ensures |r| == |rows| && r[i] == rows[i].(isActive := active)
    ensures forall j :: 0 <= j < |rows| && j != i ==> r[j] == rows[j]
  {
    rows[i := rows[i].(isActive := active)]
  }

  /** `subscribe(req)` on `rows`; `credentials` says whether `EmailService()` succeeds. */
  function Subscribe(rows: seq<Subscriber>, email: string, now: int, credentials: bool): (r: Outcome)
    // Without credentials every call fails, changing and sending nothing.
    ensures !credentials ==> r == Outcome(rows, NoCredentials, false)
    // An active subscriber is left alone and gets no mail.
    ensures credentials && Lookup(rows, email).Some? && rows[Lookup(rows, email).value].isActive ==>
              r == Outcome(rows, Ok(AlreadySubscribed), false)
    // An inactive row is reactivated in place and gets one confirmation.
    ensures credentials && Lookup(rows, email).Some? && !rows[Lookup(rows, email).value].isActive ==>
              r == Outcome(WithActive(rows, Lookup(rows, email).value, true), Ok(Reactivated), true)
    // An unknown address gets one new row and one confirmation.
    ensures credentials && Lookup(rows, email).None? ==>
              r == Outcome(rows + [NewSubscriber(email, now)], Ok(SubscribedOk), true)
  {
    if !credentials then Outcome(rows, NoCredentials, false)
    else match Lookup(rows, email)
      case Some(i) =>
        if rows[i].isActive then Outcome(rows, Ok(AlreadySubscribed), false)
        else Outcome(WithActive(rows, i, true), Ok(Reactivated), true)
      case None => Outcome(rows + [NewSubscriber(email, now)], Ok(SubscribedOk), true)
  }

  /** `unsubscribe(req)` on `rows`. */
  function Unsubscribe(rows: seq<Subscriber>, email: string): (r: Outcome)
    ensures !r.confirms
    // An unknown or inactive address is a 404 and changes nothing.
    ensures (Lookup(rows, email).None? || !rows[Lookup(rows, email).value].isActive) ==>
              r == Outcome(rows, HttpError(404, NotSubscribedDetail), false)
    // An active one is set inactive.
    ensures Lookup(rows, email).Some? && rows[Lookup(rows, email).value].isActive ==>
              r == Outcome(WithActive(rows, Lookup(rows, email).value, false), Ok(UnsubscribedOk), false)
  {
    match Lookup(rows, email)
    case None => Outcome(rows, HttpError(404, NotSubscribedDetail), false)
    case Some(i) =>
      if !rows[i].isActive then Outcome(rows, HttpError(404, NotSubscribedDetail), false)
      else Outcome(WithActive(rows, i, false), Ok(UnsubscribedOk), false)
  }

  /** The address is on the table and active. */
  predicate Active(rows: seq<Subscriber>, email: string) {
    Lookup(rows, email).Some? && rows[Lookup(rows, email).value].isActive
  }

  lemma LookupAfterSet(rows: seq<Subscriber>, i: nat, active: bool, email: string)
    requires Lookup(rows, email) == Some(i)
    ensures Lookup(WithActive(rows, i, active), email) == Some(i)
  {
    LookupFirst(WithActive(rows, i, active), email, i);
  }

  lemma LookupAfterAppend(rows: seq<Subscriber>, row: Subscriber)
    requires Lookup(rows, row.email).None?
    ensures Lookup(rows + [row], row.email) == Some(|rows|)
  {
    LookupFirst(rows + [row], row.email, |rows|);
  }

  /** The first row with `email` is the one `Lookup` finds. */
  lemma {:induction false} LookupFirst(rows: seq<Subscriber>, email: string, i: nat)
    requires i < |rows| && rows[i].email == email
    requires forall j :: 0 <= j < i ==> rows[j].email != email
    ensures Lookup(rows, email) == Some(i)
  {
    if i > 0 {
      LookupFirst(rows[1..], email, i - 1);
    }
  }

  /** With credentials, an address is active after subscribing, whatever it was before; and
      exactly the calls that change its state send a confirmation. */
  lemma SubscribeActivates(rows: seq<Subscriber>, email: string, now: int)
    ensures Active(Subscribe(rows, email, now, true).rows, email)
    ensures Subscribe(rows, email, now, true).confirms <==> !Active(rows, email)
  {
    match Lookup(rows, email)
    case Some(i) =>
      LookupAfterSet(rows, i, true, email);
    case None =>
      LookupAfterAppend(rows, NewSubscriber(email, now));
  }

  /** A second subscribe with credentials is "Already subscribed" and changes nothing. */
  lemma SubscribeIdempotent(rows: seq<Subscriber>, email: string, now: int, later: int)
    ensures var once := Subscribe(rows, email, now, true).rows;
            Subscribe(once, email, later, true) == Outcome(once, Ok(AlreadySubscribed), false)
  {
    SubscribeActivates(rows, email, now);
  }

  /** An address is inactive after unsubscribing; unsubscribing twice is a 404 the second time. */
  lemma UnsubscribeDeactivates(rows: seq<Subscriber>, email: string)
    ensures !Active(Unsubscribe(rows, email).rows, email)
    ensures Unsubscribe(Unsubscribe(rows, email).rows, email).reply == HttpError(404, NotSubscribedDetail)
  {
    if Active(rows, email) {
      LookupAfterSet(rows, Lookup(rows, email).value, false, email);
    }
  }

  /** Unsubscribing then subscribing again reactivates the same row and adds none. */
  lemma ResubscribeReactivates(rows: seq<Subscriber>, email: string, now: int)
    requires Active(rows, email)
    ensures var off := Unsubscribe(rows, email).rows;
            var on := Subscribe(off, email, now, true);
            on.reply == Ok(Reactivated) && on.confirms && |on.rows| == |rows| && on.rows == rows
  {
    var i := Lookup(rows, email).value;
    LookupAfterSet(rows, i, false, email);
    var off := Unsubscribe(rows, email).rows;
    assert WithActive(off, i, true) == rows;
  }

  /** Both endpoints keep addresses unique and leave the rows of other addresses alone. */
  lemma EndpointsKeepDistinct(rows: seq<Subscriber>, email: string, now: int, credentials: bool)
    requires EmailsDistinct(rows)
    ensures EmailsDistinct(Subscribe(rows, email, now, credentials).rows)
    ensures EmailsDistinct(Unsubscribe(rows, email).rows)
    ensures var r := Subscribe(rows, email, now, credentials).rows;
            forall i :: 0 <= i < |rows| && rows[i].email != email ==> r[i] == rows[i]
  {
    var r := Subscribe(rows, email, now, credentials).rows;
    if credentials && Lookup(rows, email).None? {
      assert forall i :: 0 <= i < |rows| ==> r[i] == rows[i];
    }
  }

  /** The `subscribers` table. */
  class SubscriberTable {
    var rows: seq<Subscriber>

    ghost predicate Valid()
      reads this
    {
      EmailsDistinct(rows)
    }

    constructor()
      ensures rows == [] && Valid()
    {
      rows := [];
    }
  }

  /** `subscribe(req)`: the lookup, `EmailService()`, then the branch on the row found. */
  method SubscribeEndpoint(table: SubscriberTable, env: map<string, string>, mailjet: Mailjet, email: string, now: int)
    returns (reply: Reply)
    requires table.Valid()
    modifies table, mailjet
    ensures table.Valid()
    ensures var r := Subscribe(old(table.rows), email, now, HasCredentials(env));
            && table.rows == r.rows && reply == r.reply
            && mailjet.sent == old(mailjet.sent) +
                 (if r.confirms
                  then [Message(Getenv(env, "SENDER_EMAIL", DefaultSenderEmail), Getenv(env, "SENDER_NAME", DefaultSenderName),
                                [RecipientOf(email)], ConfirmationSubject, ConfirmationBody)]
                  else [])
  {
    EndpointsKeepDistinct(table.rows, email, now, HasCredentials(env));
    var existing := Lookup(table.rows, email);
    var svc := NewEmailService(env, mailjet);
    if svc == null {
      return NoCredentials;
    }
    if existing.Some? && table.rows[existing.value].isActive {
      return Ok(AlreadySubscribed);
    }
    if existing.Some? {
      table.rows := WithActive(table.rows, existing.value, true);
      var _ := SendSimpleEmail(svc, email, ConfirmationSubject, ConfirmationBody);
      return Ok(Reactivated);
    }
    table.rows := table.rows + [NewSubscriber(email, now)];
    var _ := SendSimpleEmail(svc, email, ConfirmationSubject, ConfirmationBody);
    reply := Ok(SubscribedOk);
  }

  /** `unsubscribe(req)`. */
  method UnsubscribeEndpoint(table: SubscriberTable, email: string) returns (reply: Reply)
    requires table.Valid()
    modifies table
    ensures table.Valid()
    ensures Outcome(table.rows, reply, false) == Unsubscribe(old(table.rows), email)
  {
    EndpointsKeepDistinct(table.rows, email, 0, false);
    var existing := Lookup(table.rows, email);
    if existing.None? || !table.rows[existing.value].isActive {
      return HttpError(404, NotSubscribedDetail);
    }
    table.rows := WithActive(table.rows, existing.value, false);
    reply := Ok(UnsubscribedOk);
  }
}
