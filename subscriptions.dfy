/** The subscription table (`email` unique, `is_active` defaulting to true, creation and update
    times) and the two handlers of the Gradio subscription screen, which validate the address
    and then add, reactivate or deactivate a row. */
module Subscriptions {
  import opened Wrappers
  import opened EmailRules

  /** One row: `email`, `is_active`, `created_at`, `updated_at`. */
  datatype Subscription = Subscription(email: string, isActive: bool, createdAt: int, updatedAt: int)

  /** `email` is unique. */
  predicate EmailsDistinct(rows: seq<Subscription>) {
    forall i, j :: 0 <= i < j < |rows| ==> rows[i].email != rows[j].email
  }

  /** `query(...).filter_by(email=email).first()`: the index of the first row with `email`. */
  function Find(rows: seq<Subscription>, email: string): (r: Option<nat>)
    ensures r.Some? ==> r.value < |rows| && rows[r.value].email == email
    ensures r.Some? ==> forall j :: 0 <= j < r.value ==> rows[j].email != email
    ensures r.None? ==> forall j :: 0 <= j < |rows| ==> rows[j].email != email
  {
    if rows == [] then None
    else if rows[|rows| - 1].email == email && Find(rows[..|rows| - 1], email).None? then Some(|rows| - 1)
    else Find(rows[..|rows| - 1], email)
  }

  /** `email` has a row that is active. */
  predicate Subscribed(rows: seq<Subscription>, email: string) {
    Find(rows, email).Some? && rows[Find(rows, email).value].isActive
  }

  /** A new row: active, created and updated now. */
  function NewRow(email: string, now: int): Subscription {
    Subscription(email, true, now, now)
  }

  /** A table and the message shown after a handler ran. */
  datatype Change = Change(rows: seq<Subscription>, message: string)

  const InvalidEmailMessage: string := "⚠️ Please enter a valid email address."
  const AlreadySubscribedMessage: string := "ℹ️ You are already subscribed!"
  const ReactivatedMessage: string := "✅ Welcome back! Your subscription has been reactivated."
  const SubscribedMessage: string := "✅ Successfully subscribed to AI News Weekly Digest!"
  const NotSubscribedMessage: string := "ℹ️ This email is not subscribed."
  const UnsubscribedMessage: string := "✅ Successfully unsubscribed from AI News Weekly Digest."

  /** `rows` with row `i` set to `active`, its update time set to `now`. */
  function SetActive(rows: seq<Subscription>, i: nat, active: bool, now: int): (r: seq<Subscription>)
    requires i < |rows|
    ensures |r| == |rows| && r[i].email == rows[i].email && r[i].isActive == active
    ensures forall j :: 0 <= j < |rows| && j != i ==> r[j] == rows[j]
  {
    rows[i := rows[i].(isActive := active, updatedAt := now)]
  }

  /** `handle_subscribe` on the table `rows` at time `now`. */
  function Subscribe(rows: seq<Subscription>, email: string, now: int): (r: Change)
    // An invalid address changes nothing.
    ensures !IsValidEmail(email) ==> r == Change(rows, InvalidEmailMessage)
    // An active subscriber is left as they are.
    ensures IsValidEmail(email) && Subscribed(rows, email) ==> r == Change(rows, AlreadySubscribedMessage)
    // An inactive row is reactivated in place; no row is added.
    ensures IsValidEmail(email) && Find(rows, email).Some? && !Subscribed(rows, email) ==>
              r == Change(SetActive(rows, Find(rows, email).value, true, now), ReactivatedMessage)
    // An unknown address gets exactly one new, active row at the end.
    ensures IsValidEmail(email) && Find(rows, email).None? ==>
              r == Change(rows + [NewRow(email, now)], SubscribedMessage)
  {
    if !IsValidEmail(email) then Change(rows, InvalidEmailMessage)
    else match Find(rows, email)
      case Some(i) =>
        if rows[i].isActive then Change(rows, AlreadySubscribedMessage)
        else Change(SetActive(rows, i, true, now), ReactivatedMessage)
      case None => Change(rows + [NewRow(email, now)], SubscribedMessage)
  }

  /** `handle_unsubscribe` on the table `rows` at time `now`. */
  function Unsubscribe(rows: seq<Subscription>, email: string, now: int): (r: Change)
    ensures !LooseEmail(email) ==> r == Change(rows, InvalidEmailMessage)
    ensures LooseEmail(email) && !Subscribed(rows, email) ==> r == Change(rows, NotSubscribedMessage)
    ensures LooseEmail(email) && Subscribed(rows, email) ==>
              r == Change(SetActive(rows, Find(rows, email).value, false, now), UnsubscribedMessage)
  {
    if !LooseEmail(email) then Change(rows, InvalidEmailMessage)
    else match Find(rows, email)
      case Some(i) =>
        if rows[i].isActive then Change(SetActive(rows, i, false, now), UnsubscribedMessage)
        else Change(rows, NotSubscribedMessage)
      case None => Change(rows, NotSubscribedMessage)
  }

  /** A valid address is subscribed afterwards, whatever its state before. */
  lemma SubscribeSubscribes(rows: seq<Subscription>, email: string, now: int)
    requires IsValidEmail(email)
    ensures Subscribed(Subscribe(rows, email, now).rows, email)
  {
    var r := Subscribe(rows, email, now).rows;
    match Find(rows, email)
    case Some(i) =>
      assert Find(r, email) == Some(i) by { FindAfterSet(rows, i, true, now, email); }
    case None =>
      FindAfterAppend(rows, NewRow(email, now));
  }

  /** Subscribing twice is subscribing once; the second time says so. */
  lemma SubscribeIdempotent(rows: seq<Subscription>, email: string, now: int, later: int)
    ensures var once := Subscribe(rows, email, now).rows;
            Subscribe(once, email, later).rows == once
    ensures IsValidEmail(email) ==>
              Subscribe(Subscribe(rows, email, now).rows, email, later).message == AlreadySubscribedMessage
  {
    if IsValidEmail(email) {
      SubscribeSubscribes(rows, email, now);
    }
  }

  /** An unsubscribed address is not subscribed afterwards. */
  lemma UnsubscribeUnsubscribes(rows: seq<Subscription>, email: string, now: int)
    requires LooseEmail(email)
    ensures !Subscribed(Unsubscribe(rows, email, now).rows, email)
  {
    if Subscribed(rows, email) {
      FindAfterSet(rows, Find(rows, email).value, false, now, email);
    }
  }

  /** Neither handler touches a row of another address; the subscribe handler only ever adds
      a row at the end. */
  lemma HandlersKeepOthers(rows: seq<Subscription>, email: string, now: int)
    ensures var r := Subscribe(rows, email, now).rows;
            && |rows| <= |r| <= |rows| + 1
            && (forall i :: 0 <= i < |rows| && rows[i].email != email ==> r[i] == rows[i])
            && (forall i :: |rows| <= i < |r| ==> r[i] == NewRow(email, now))
    ensures var r := Unsubscribe(rows, email, now).rows;
            && |r| == |rows|
            && forall i :: 0 <= i < |rows| && rows[i].email != email ==> r[i] == rows[i]
  {
  }

  /** Both handlers keep addresses unique. */
  lemma HandlersKeepDistinct(rows: seq<Subscription>, email: string, now: int)
    requires EmailsDistinct(rows)
    ensures EmailsDistinct(Subscribe(rows, email, now).rows)
    ensures EmailsDistinct(Unsubscribe(rows, email, now).rows)
  {
    var r := Subscribe(rows, email, now).rows;
    if IsValidEmail(email) && Find(rows, email).None? {
      assert forall i :: 0 <= i < |rows| ==> r[i] == rows[i];
    }
  }

  /** Changing row `i` keeps it the first row with its address. */
  lemma FindAfterSet(rows: seq<Subscription>, i: nat, active: bool, now: int, email: string)
    requires i < |rows| && Find(rows, email) == Some(i)
    ensures Find(SetActive(rows, i, active, now), email) == Some(i)
  {
    var r := SetActive(rows, i, active, now);
    FindFirst(r, email, i);
  }

  /** A row appended for an address no row had is the first for it. */
  lemma FindAfterAppend(rows: seq<Subscription>, row: Subscription)
    requires Find(rows, row.email).None?
    ensures Find(rows + [row], row.email) == Some(|rows|)
  {
    assert (rows + [row])[..|rows|] == rows;
  }

  /** The first row with `email` is what `Find` returns. */
  lemma {:induction false} FindFirst(rows: seq<Subscription>, email: string, i: nat)
    requires i < |rows| && rows[i].email == email
    requires forall j :: 0 <= j < i ==> rows[j].email != email
    ensures Find(rows, email) == Some(i)
  {
    var init := rows[..|rows| - 1];
    if i < |rows| - 1 {
      FindFirst(init, email, i);
    } else {
      assert Find(init, email).None?;
    }
  }

  /** The subscription table. */
  class SubscriptionTable {
    var rows: seq<Subscription>

    ghost predicate Valid()
      reads this
    {
      EmailsDistinct(rows)
    }

    constructor()
      ensures rows == [] && Valid()
    {
      rows := [];
    }

    /** `existing.is_active = active` followed by `db.commit()`. */
    method SetActiveAt(i: nat, active: bool, now: int)
      requires i < |rows| && Valid()
      modifies this
      ensures rows == SetActive(old(rows), i, active, now) && Valid()
    {
      rows := SetActive(rows, i, active, now);
    }

    /** `db.add(Subscription(email=email))` followed by `db.commit()`; the caller has looked the
        address up and found nothing. */
    method Add(email: string, now: int)
      requires Find(rows, email).None? && Valid()
      modifies this
      ensures rows == old(rows) + [NewRow(email, now)] && Valid()
    {
      rows := rows + [NewRow(email, now)];
    }
  }

  /** `handle_subscribe(email)`. */
  method HandleSubscribe(table: SubscriptionTable, email: string, now: int) returns (message: string)
    requires table.Valid()
    modifies table
    ensures table.Valid()
    ensures Change(table.rows, message) == Subscribe(old(table.rows), email, now)
  {
    if !IsValidEmail(email) {
      return InvalidEmailMessage;
    }
    var existing := Find(table.rows, email);
    if existing.Some? {
      if table.rows[existing.value].isActive {
        return AlreadySubscribedMessage;
      }
      table.SetActiveAt(existing.value, true, now);
      return ReactivatedMessage;
    }
    table.Add(email, now);
    message := SubscribedMessage;
  }

  /** `handle_unsubscribe(email)`. */
  method HandleUnsubscribe(table: SubscriptionTable, email: string, now: int) returns (message: string)
    requires table.Valid()
    modifies table
    ensures table.Valid()
    ensures Change(table.rows, message) == Unsubscribe(old(table.rows), email, now)
  {
    if !LooseEmail(email) {
      return InvalidEmailMessage;
    }
    var existing := Find(table.rows, email);
    if existing.None? || !table.rows[existing.value].isActive {
      return NotSubscribedMessage;
    }
    table.SetActiveAt(existing.value, false, now);
    message := UnsubscribedMessage;
  }
}
