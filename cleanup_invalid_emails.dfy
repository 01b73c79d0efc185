/** The cleanup job: every active subscription whose cleaned address fails the address check
    is deleted, in one transaction that is committed only when something was deleted and
    rolled back, with the error passed on, when the commit fails. */
module Cleanup {
  import opened Sorting
  import opened EmailRules
  import opened Subscriptions

  /** The cleaned address fails the address check. */
  predicate CleanedInvalid(e: string) {
    !IsValidEmail(CleanEmail(e))
  }

  /** A row the job deletes, for the address test `bad`. */
  function Doomed(bad: string -> bool): Subscription -> bool {
    (s: Subscription) => s.isActive && bad(s.email)
  }

  /** A row the job keeps. */
  function Spared(bad: string -> bool): Subscription -> bool {
    (s: Subscription) => !(s.isActive && bad(s.email))
  }

  /** How the job ends: the number of rows it deleted, or the error it passed on. */
  datatype CleanupResult = Removed(count: nat) | Raised

  /** What the job leaves and answers on `rows`; `commitFails` says whether `db.commit()`
      raises. Without deletions there is no commit, so nothing can fail. */
  function Cleaned(rows: seq<Subscription>, bad: string -> bool, commitFails: bool): (seq<Subscription>, CleanupResult) {
    var n := |Filter(rows, Doomed(bad))|;
    if n > 0 && commitFails then (rows, Raised)
    else (Filter(rows, Spared(bad)), Removed(n))
  }

  /** The deletions the job makes: exactly the active rows that fail the test go; inactive
      rows and the rows that pass stay, with their stored address and in their order; the
      count is the number of rows gone. */
  lemma {:induction false} CleanupDeletesExactlyInvalid(rows: seq<Subscription>, bad: string -> bool)
    ensures var kept := Filter(rows, Spared(bad));
            && (forall s :: s in kept <==> s in rows && !(s.isActive && bad(s.email)))
            && (forall s :: s in rows && !s.isActive ==> s in kept)
            && |kept| + |Filter(rows, Doomed(bad))| == |rows|
  {
    FilterMembers(rows, Spared(bad));
    FilterComplement(rows, Spared(bad), Doomed(bad));
  }

  /** Without a row to delete, every row is kept. */
  lemma {:induction false} NothingDoomed(rows: seq<Subscription>, bad: string -> bool)
    requires |Filter(rows, Doomed(bad))| == 0
    ensures Filter(rows, Spared(bad)) == rows
  {
    FilterMembers(rows, Doomed(bad));
    forall i | 0 <= i < |rows| ensures Spared(bad)(rows[i]) {
      assert rows[i] in rows;
      assert rows[i] !in Filter(rows, Doomed(bad));
    }
    FilterAllPass(rows, Spared(bad));
  }

  /** The job keeps addresses unique. */
  lemma {:induction false} FilterKeepsDistinct(rows: seq<Subscription>, keep: Subscription -> bool)
    requires EmailsDistinct(rows)
    ensures EmailsDistinct(Filter(rows, keep))
  {
    if rows != [] {
      var tail := rows[1..];
      assert EmailsDistinct(tail) by {
        assert forall m :: 0 <= m < |tail| ==> tail[m] == rows[m + 1];
      }
      FilterKeepsDistinct(tail, keep);
      FilterMembers(tail, keep);
      if keep(rows[0]) {
        var r := Filter(rows, keep);
        assert r == [rows[0]] + Filter(tail, keep);
        forall j | 0 < j < |r| ensures r[0].email != r[j].email {
          assert r[j] in tail;
          var m :| 0 <= m < |tail| && tail[m] == r[j];
          assert rows[m + 1] == r[j];
        }
      }
    }
  }

  /** The loop of `remove_invalid_emails`: the rows it keeps and the number it deletes. */
  method Sweep(rows: seq<Subscription>, bad: string -> bool) returns (kept: seq<Subscription>, count: nat)
    ensures kept == Filter(rows, Spared(bad)) && count == |Filter(rows, Doomed(bad))|
  {
    kept, count := [], 0;
    for i := 0 to |rows|
      invariant kept == Filter(rows[..i], Spared(bad)) && count == |Filter(rows[..i], Doomed(bad))|
    {
      PrefixSnoc(rows, i);
      FilterSnoc(rows[..i], rows[i], Spared(bad));
      FilterSnoc(rows[..i], rows[i], Doomed(bad));
      if rows[i].isActive && bad(rows[i].email) {
        count := count + 1;
      } else {
        kept := kept + [rows[i]];
      }
    }
    assert rows[..|rows|] == rows;
  }

  /** `remove_invalid_emails()` on the subscription table. */
  method RemoveInvalidEmails(table: SubscriptionTable, commitFails: bool) returns (result: CleanupResult)
    requires table.Valid()
    modifies table
    ensures table.Valid()
    ensures (table.rows, result) == Cleaned(old(table.rows), CleanedInvalid, commitFails)
  {
    var kept, count := Sweep(table.rows, CleanedInvalid);
    if count > 0 {
      if commitFails {
        // db.rollback() and re-raise: the table keeps every row.
        return Raised;
      }
      FilterKeepsDistinct(table.rows, Spared(CleanedInvalid));
      table.rows := kept;
    } else {
      // Nothing was deleted and nothing is committed; the table already holds just the kept rows.
      NothingDoomed(table.rows, CleanedInvalid);
    }
    result := Removed(count);
  }
}
