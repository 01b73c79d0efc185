/** The subscriber report: the active addresses, each cleaned, deduplicated on its cleaned form
    and put in the valid or the invalid list, both lists in order of first subscription.
    Printing the report is not modelled; the report is the two lists. */
module SubscriberView {
  import opened Wrappers
  import opened Text
  import opened Sorting
  import opened EmailRules
  import opened Subscriptions

  /** One line of the report: an address with its first-subscription and last-update times. */
  datatype Listed = Listed(email: string, created: int, updated: int)

  /** The grouped query: one line per active address, with the earliest creation and latest
      update of its rows. Addresses are unique, so each group is one row. */
  function ActiveGroups(rows: seq<Subscription>): (r: seq<Listed>)
    ensures |r| == |Filter(rows, IsActiveRow)|
    ensures forall i :: 0 <= i < |r| ==>
              var s := Filter(rows, IsActiveRow)[i]; r[i] == Listed(s.email, s.createdAt, s.updatedAt)
  {
    var active := Filter(rows, IsActiveRow);
    seq(|active|, i requires 0 <= i < |active| => Listed(active[i].email, active[i].createdAt, active[i].updatedAt))
  }

  predicate IsActiveRow(s: Subscription) { s.isActive }

  /** `format_datetime(dt)`: "N/A" for a missing time; `strftime` stands for the
      `%Y-%m-%d %H:%M:%S` rendering. */
  function FormatDatetime(dt: Option<int>, strftime: int -> string): (r: string)
    ensures dt.None? ==> r == "N/A"
    ensures dt.Some? ==> r == strftime(dt.value)
  {
    match dt
    case Some(t) => strftime(t)
    case None => "N/A"
  }

  /** The loop's test before the dedup: non-empty and containing '@'. */
  predicate Admissible(c: string) {
    c != [] && '@' in c
  }

  /** The line with its address cleaned. */
  function Cleaned(g: Listed, clean: string -> string): Listed {
    g.(email := clean(g.email))
  }

  function Addresses(xs: seq<Listed>): (r: seq<string>)
    ensures |r| == |xs| && forall i :: 0 <= i < |xs| ==> r[i] == xs[i].email
  {
    seq(|xs|, i requires 0 <= i < |xs| => xs[i].email)
  }

  /** The state of the loop: the cleaned addresses seen, and the two lists. */
  datatype Screening = Screening(seen: set<string>, valid: seq<Listed>, invalid: seq<Listed>)

  /** The loop of `view_subscribers` over `groups`, before sorting, with `clean` for
      `clean_email` and `valid` for `is_valid_email`. */
  function Screen(groups: seq<Listed>, clean: string -> string, valid: string -> bool): Screening {
    if groups == [] then Screening({}, [], [])
    else
      var s := Screen(groups[..|groups| - 1], clean, valid);
      var g := groups[|groups| - 1];
      var c := clean(g.email);
      if Admissible(c) && c !in s.seen then
        if valid(c) then Screening(s.seen + {c}, s.valid + [Cleaned(g, clean)], s.invalid)
        else Screening(s.seen + {c}, s.valid, s.invalid + [Cleaned(g, clean)])
      else s
  }

  /** Each list holds what its name says, and only addresses seen. */
  predicate ListedAs(r: Screening, valid: string -> bool) {
    && (forall x :: x in r.valid ==> valid(x.email) && x.email in r.seen)
    && (forall x :: x in r.invalid ==> !valid(x.email) && x.email in r.seen)
  }

  /** Every address seen is admissible and listed, and no list repeats an address. */
  predicate SeenListed(r: Screening) {
    && (forall c :: c in r.seen ==> Admissible(c) && (c in Addresses(r.valid) || c in Addresses(r.invalid)))
    && Distinct(Addresses(r.valid)) && Distinct(Addresses(r.invalid))
  }

  /** Every admissible cleaned address of `groups` has been seen. */
  predicate Complete(groups: seq<Listed>, clean: string -> string, r: Screening) {
    forall i :: 0 <= i < |groups| && Admissible(clean(groups[i].email)) ==> clean(groups[i].email) in r.seen
  }

  /** Every entry is the line of some group, with its address cleaned. */
  predicate FromGroups(groups: seq<Listed>, clean: string -> string, r: Screening) {
    forall x :: x in r.valid + r.invalid ==> exists i :: 0 <= i < |groups| && x == Cleaned(groups[i], clean)
  }

  /** What the screening loop keeps true. */
  lemma {:induction false} ScreenCorrect(groups: seq<Listed>, clean: string -> string, valid: string -> bool)
    ensures var r := Screen(groups, clean, valid);
            ListedAs(r, valid) && SeenListed(r) && Complete(groups, clean, r) && FromGroups(groups, clean, r)
  {
    if groups != [] {
      var n := |groups|;
      var init := groups[..n - 1];
      ScreenCorrect(init, clean, valid);
      var s := Screen(init, clean, valid);
      var g := groups[n - 1];
      var c := clean(g.email);
      var x := Cleaned(g, clean);
      var r := Screen(groups, clean, valid);
      if Admissible(c) && c !in s.seen {
        AddressesSnoc(s.valid, x);
        AddressesSnoc(s.invalid, x);
      }
      StepComplete(groups, clean, valid);
      StepFromGroups(groups, clean, valid);
    }
  }

  lemma {:induction false} StepComplete(groups: seq<Listed>, clean: string -> string, valid: string -> bool)
    requires groups != [] && Complete(groups[..|groups| - 1], clean, Screen(groups[..|groups| - 1], clean, valid))
    ensures Complete(groups, clean, Screen(groups, clean, valid))
  {
    var init := groups[..|groups| - 1];
    assert forall i :: 0 <= i < |init| ==> init[i] == groups[i];
  }

  lemma {:induction false} StepFromGroups(groups: seq<Listed>, clean: string -> string, valid: string -> bool)
    requires groups != [] && FromGroups(groups[..|groups| - 1], clean, Screen(groups[..|groups| - 1], clean, valid))
    ensures FromGroups(groups, clean, Screen(groups, clean, valid))
  {
    var n := |groups|;
    var init := groups[..n - 1];
    var s := Screen(init, clean, valid);
    var r := Screen(groups, clean, valid);
    forall x | x in r.valid + r.invalid ensures exists i :: 0 <= i < n && x == Cleaned(groups[i], clean) {
      if x in s.valid + s.invalid {
        var i :| 0 <= i < n - 1 && x == Cleaned(init[i], clean);
        assert x == Cleaned(groups[i], clean);
      } else {
        assert x == Cleaned(groups[n - 1], clean);
      }
    }
  }

  /** Adding a line whose address is new keeps the list's addresses distinct. */
  lemma {:induction false} AddressesSnoc(xs: seq<Listed>, x: Listed)
    requires Distinct(Addresses(xs))
    requires x.email !in Addresses(xs)
    ensures Addresses(xs + [x]) == Addresses(xs) + [x.email]
    ensures Distinct(Addresses(xs + [x]))
    ensures forall c :: c in Addresses(xs + [x]) <==> c in Addresses(xs) || c == x.email
  {
    assert Addresses(xs + [x]) == Addresses(xs) + [x.email];
  }

  function NegCreated(x: Listed): real {
    -(x.created as real)
  }

  /** `sorted(xs, key=lambda x: x[1])`: stable and ascending by first subscription. */
  function ByCreated(xs: seq<Listed>): (r: seq<Listed>)
    ensures multiset(r) == multiset(xs)
    ensures forall i, j :: 0 <= i < j < |r| ==> r[i].created <= r[j].created
  {
    var r := SortDesc(xs, NegCreated);
    assert forall i, j :: 0 <= i < j < |r| ==> NegCreated(r[i]) >= NegCreated(r[j]);
    r
  }

  /** What the report holds. */
  datatype Report = NoActiveSubscribers | Report(valid: seq<Listed>, invalid: seq<Listed>)

  /** The report on the grouped lines `groups`. */
  function ReportOf(groups: seq<Listed>, clean: string -> string, valid: string -> bool): Report {
    if groups == [] then NoActiveSubscribers
    else
      var s := Screen(groups, clean, valid);
      Report(ByCreated(s.valid), ByCreated(s.invalid))
  }

  /** The report on `rows`. */
  function View(rows: seq<Subscription>): Report {
    ReportOf(ActiveGroups(rows), CleanEmail, IsValidEmail)
  }

  /** What the report promises: valid entries pass the address check and invalid ones fail it,
      every entry is a group's line with its address cleaned, no cleaned address appears twice,
      every group whose cleaned address is non-empty and has '@' is listed, and both lists are
      in order of first subscription. */
  lemma {:induction false} ReportOfCorrect(groups: seq<Listed>, clean: string -> string, valid: string -> bool)
    requires groups != []
    ensures var r := ReportOf(groups, clean, valid);
            && r.Report?
            && (forall x :: x in r.valid ==> valid(x.email) && Admissible(x.email))
            && (forall x :: x in r.invalid ==> !valid(x.email) && Admissible(x.email))
            && (forall x :: x in r.valid + r.invalid ==> exists i :: 0 <= i < |groups| && x == Cleaned(groups[i], clean))
            && (forall i, j :: 0 <= i < j < |r.valid| ==> r.valid[i].created <= r.valid[j].created)
            && (forall i, j :: 0 <= i < j < |r.invalid| ==> r.invalid[i].created <= r.invalid[j].created)
            && Distinct(Addresses(r.valid)) && Distinct(Addresses(r.invalid))
            && (forall i :: 0 <= i < |groups| && Admissible(clean(groups[i].email)) ==>
                  clean(groups[i].email) in Addresses(r.valid) || clean(groups[i].email) in Addresses(r.invalid))
  {
    var s := Screen(groups, clean, valid);
    ScreenCorrect(groups, clean, valid);
    var r := ReportOf(groups, clean, valid);
    SameListing(s.valid);
    SameListing(s.invalid);
    assert forall x :: x in r.valid + r.invalid ==> x in s.valid + s.invalid;
  }

  /** Every active row is one of the grouped lines. */
  lemma {:induction false} ActiveRowsGrouped(rows: seq<Subscription>)
    ensures forall s :: s in rows && s.isActive ==>
              exists i :: 0 <= i < |ActiveGroups(rows)| && ActiveGroups(rows)[i] == Listed(s.email, s.createdAt, s.updatedAt)
  {
    FilterMembers(rows, IsActiveRow);
    var active := Filter(rows, IsActiveRow);
    forall s | s in rows && s.isActive
      ensures exists i :: 0 <= i < |ActiveGroups(rows)| && ActiveGroups(rows)[i] == Listed(s.email, s.createdAt, s.updatedAt)
    {
      assert s in active;
      var i :| 0 <= i < |active| && active[i] == s;
      assert ActiveGroups(rows)[i] == Listed(s.email, s.createdAt, s.updatedAt);
    }
  }

  /** Sorting by creation keeps the entries and their addresses, without repeats. */
  lemma {:induction false} SameListing(xs: seq<Listed>)
    requires Distinct(Addresses(xs))
    ensures forall x :: x in ByCreated(xs) <==> x in xs
    ensures forall c :: c in Addresses(ByCreated(xs)) <==> c in Addresses(xs)
    ensures Distinct(Addresses(ByCreated(xs)))
  {
    var r := ByCreated(xs);
    SameMembers(r, xs);
    assert forall c :: c in Addresses(r) <==> c in Addresses(xs) by {
      forall c | c in Addresses(r) ensures c in Addresses(xs) {
        var i :| 0 <= i < |r| && Addresses(r)[i] == c;
        assert r[i] in xs;
        var j :| 0 <= j < |xs| && xs[j] == r[i];
        assert Addresses(xs)[j] == c;
      }
      forall c | c in Addresses(xs) ensures c in Addresses(r) {
        var j :| 0 <= j < |xs| && Addresses(xs)[j] == c;
        assert xs[j] in r;
        var i :| 0 <= i < |r| && r[i] == xs[j];
        assert Addresses(r)[i] == c;
      }
    }
    DistinctAddressesPermuted(xs, r);
  }

  /** A reordering of a list with distinct addresses has distinct addresses. */
  lemma {:induction false} DistinctAddressesPermuted(xs: seq<Listed>, ys: seq<Listed>)
    requires multiset(xs) == multiset(ys) && Distinct(Addresses(xs))
    ensures Distinct(Addresses(ys))
  {
    assert Distinct(xs) by {
      assert forall p, q :: 0 <= p < q < |xs| ==> Addresses(xs)[p] != Addresses(xs)[q];
    }
    DistinctPermuted(xs, ys);
    forall i, j | 0 <= i < j < |ys| ensures Addresses(ys)[i] != Addresses(ys)[j] {
      assert ys[i] in multiset(xs) && ys[j] in multiset(xs);
      var p :| 0 <= p < |xs| && xs[p] == ys[i];
      var q :| 0 <= q < |xs| && xs[q] == ys[j];
      assert p != q;
      assert Addresses(xs)[p] != Addresses(xs)[q];
    }
  }

  /** The loop of `view_subscribers()`. */
  method ScreenLoop(groups: seq<Listed>, clean: string -> string, valid: string -> bool) returns (r: Screening)
    ensures r == Screen(groups, clean, valid)
  {
    var validList: seq<Listed> := [];
    var invalidList: seq<Listed> := [];
    var seen: set<string> := {};
    for i := 0 to |groups|
      invariant Screening(seen, validList, invalidList) == Screen(groups[..i], clean, valid)
    {
      assert groups[..i + 1][..i] == groups[..i];
      var c := clean(groups[i].email);
      if c != [] && '@' in c && c !in seen {
        seen := seen + {c};
        if valid(c) {
          validList := validList + [Listed(c, groups[i].created, groups[i].updated)];
        } else {
          invalidList := invalidList + [Listed(c, groups[i].created, groups[i].updated)];
        }
      }
    }
    assert groups[..|groups|] == groups;
    r := Screening(seen, validList, invalidList);
  }

  /** `view_subscribers()` on the table `rows`. */
  method ViewSubscribers(rows: seq<Subscription>) returns (report: Report)
    ensures report == View(rows)
  {
    var groups := ActiveGroups(rows);
    if groups == [] {
      return NoActiveSubscribers;
    }
    var s := ScreenLoop(groups, CleanEmail, IsValidEmail);
    report := Report(ByCreated(s.valid), ByCreated(s.invalid));
  }
}
