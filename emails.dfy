/** The address checks and the address clean-up shared by the subscription screens and the
    maintenance scripts: the strict pattern `is_valid_email` matches with `re.match`, the looser
    pattern the unsubscribe handler uses, and `clean_email`'s four substitutions. Each regular
    expression is written out as a predicate over the positions where its parts meet; `\d` and
    `\w` are their ASCII ranges. */
module EmailRules {
  import opened Text
  import opened Sorting

  /** Every character of `s` satisfies `p`. */
  predicate AllOf(s: string, p: char -> bool) {
    forall i :: 0 <= i < |s| ==> p(s[i])
  }

  /** `[a-zA-Z0-9._%+-]`. */
  predicate LocalChar(c: char) {
    IsAsciiAlnum(c) || c == '.' || c == '_' || c == '%' || c == '+' || c == '-'
  }

  /** `[a-zA-Z0-9.-]`. */
  predicate DomainChar(c: char) {
    IsAsciiAlnum(c) || c == '.' || c == '-'
  }

  // ----- is_valid_email -----

  /** `[a-zA-Z0-9._%+-]+@[a-zA-Z0-9.-]+\.[a-zA-Z]{2,}` matches all of `s`, with its '@' at
      `at` and its `\.` at `dot`. */
  predicate StrictAt(s: string, at: int, dot: int) {
    && 0 < at && at + 1 < dot && dot + 3 <= |s|
    && s[at] == '@' && s[dot] == '.'
    && AllOf(s[..at], LocalChar) && AllOf(s[at + 1..dot], DomainChar) && AllOf(s[dot + 1..], IsAsciiLetter)
  }

  predicate StrictMatch(s: string) {
    exists at, dot :: 0 <= at < |s| && 0 <= dot < |s| && StrictAt(s, at, dot)
  }

  /** `s` ends with a newline. */
  predicate EndsInNewline(s: string) {
    |s| > 0 && s[|s| - 1] == '\n'
  }

  /** `is_valid_email`: `re.match` anchors the start; `$` matches at the end or just before a
      final newline, so one trailing "\n" is accepted. */
  predicate IsValidEmail(e: string) {
    StrictMatch(e) || (EndsInNewline(e) && StrictMatch(e[..|e| - 1]))
  }

  /** A valid address has exactly one '@', and something before it. */
  lemma ValidEmailOneAt(e: string)
    requires IsValidEmail(e)
    ensures exists k :: 0 < k < |e| && e[k] == '@'
    ensures forall k, l :: 0 <= k < l < |e| && e[k] == '@' ==> e[l] != '@'
  {
    var s := if StrictMatch(e) then e else e[..|e| - 1];
    assert StrictMatch(s) && |s| <= |e| && e[..|s|] == s;
    var at, dot :| 0 <= at < |s| && 0 <= dot < |s| && StrictAt(s, at, dot);
    assert e[at] == s[at] == '@';
    AtOnlyAt(s, at, dot);
    assert forall k :: |s| <= k < |e| ==> e[k] == '\n';
  }

  /** In a full match the '@' of the pattern is the only one. */
  lemma AtOnlyAt(s: string, at: int, dot: int)
    requires StrictAt(s, at, dot)
    ensures forall k :: 0 <= k < |s| && k != at ==> s[k] != '@'
  {
    forall k | 0 <= k < |s| && k != at ensures s[k] != '@' {
      if k < at {
        assert LocalChar(s[..at][k]);
      } else if k < dot {
        assert DomainChar(s[at + 1..dot][k - at - 1]);
      } else if k > dot {
        assert IsAsciiLetter(s[dot + 1..][k - dot - 1]);
      }
    }
  }

  /** Exactly one trailing newline is tolerated: a matching address is accepted with one
      newline after it and refused with two. */
  lemma ValidEmailNewline(c: string)
    requires StrictMatch(c)
    ensures IsValidEmail(c + "\n")
    ensures !IsValidEmail(c + "\n\n")
  {
    assert (c + "\n")[..|c|] == c;
    NoMatchEndingInNewline(c + "\n");
    var d := c + "\n\n";
    assert d[..|d| - 1] == c + "\n";
    NoMatchEndingInNewline(d);
  }

  /** The pattern ends in letters, so no text ending in a newline matches it in full. */
  lemma NoMatchEndingInNewline(s: string)
    requires EndsInNewline(s)
    ensures !StrictMatch(s)
  {
    forall at, dot | 0 <= at < |s| && 0 <= dot < |s| ensures !StrictAt(s, at, dot) {
      if dot + 3 <= |s| {
        assert s[dot + 1..][|s| - dot - 2] == '\n';
      }
    }
  }

  // ----- The unsubscribe check -----

  /** `[^@]+@[^@]+\.[^@]+` matches a prefix of `s` (`re.match` has no end anchor here), with its
      '@' at `at` and its `\.` at `dot`; one character after the dot is enough. */
  predicate LooseAt(s: string, at: int, dot: int) {
    && 0 < at && at + 1 < dot && dot + 1 < |s|
    && s[at] == '@' && s[dot] == '.' && s[dot + 1] != '@'
    && '@' !in s[..at] && '@' !in s[at + 1..dot]
  }

  predicate LooseEmail(s: string) {
    exists at, dot :: 0 <= at < |s| && 0 <= dot < |s| && LooseAt(s, at, dot)
  }

  /** Everything the strict check accepts passes the loose check. */
  lemma StrictImpliesLoose(e: string)
    requires IsValidEmail(e)
    ensures LooseEmail(e)
  {
    var s := if StrictMatch(e) then e else e[..|e| - 1];
    assert StrictMatch(s) && |s| <= |e| && e[..|s|] == s;
    var at, dot :| 0 <= at < |s| && 0 <= dot < |s| && StrictAt(s, at, dot);
    assert s[dot + 1..][0] == s[dot + 1];
    assert '@' !in s[..at] by {
      forall k | 0 <= k < at ensures s[..at][k] != '@' { assert LocalChar(s[..at][k]); }
    }
    var mid := s[at + 1..dot];
    assert '@' !in mid by {
      forall k | 0 <= k < |mid| ensures mid[k] != '@' { assert DomainChar(mid[k]); }
    }
    assert e[..at] == s[..at] && e[at + 1..dot] == mid;
    assert LooseAt(e, at, dot);
  }

  /** The converse fails: an address with a space and a one-letter ending passes the loose
      check and fails the strict one. */
  lemma LooseAcceptsMore()
    ensures LooseEmail("a b@c.d") && !IsValidEmail("a b@c.d")
  {
    var s := "a b@c.d";
    assert LooseAt(s, 3, 5);
    forall at, dot | 0 <= at < |s| && 0 <= dot < |s| ensures !StrictAt(s, at, dot) {
    }
    assert !EndsInNewline(s);
  }

  // ----- clean_email -----

  /** `\d{2}:\d{2}:\d{2}\.`, the fixed head of a stamp. */
  predicate StampHead(h: string) {
    && |h| == 9
    && IsAsciiDigit(h[0]) && IsAsciiDigit(h[1]) && h[2] == ':'
    && IsAsciiDigit(h[3]) && IsAsciiDigit(h[4]) && h[5] == ':'
    && IsAsciiDigit(h[6]) && IsAsciiDigit(h[7]) && h[8] == '.'
  }

  /** `\d{2}:\d{2}:\d{2}\.\d+` matches `s[k..]` exactly. */
  predicate StampAt(s: string, k: int) {
    0 <= k && k + 10 <= |s| && StampHead(s[k..k + 9]) && AllOf(s[k + 9..], IsAsciiDigit)
  }

  /** The length of the stamp `s` ends with, or 0. The digits after the dot run to the end, so
      the stamp starts nine characters before the run of trailing digits. */
  function StampLen(s: string): (n: nat)
    ensures n <= |s|
  {
    var r := TrailingCount(s, IsAsciiDigit);
    if 1 <= r && r + 9 <= |s| && StampHead(s[|s| - r - 9..|s| - r]) then r + 9 else 0
  }

  /** The computed stamp is the one the pattern finds: there is one exactly when `s` ends in a
      stamp, and it starts where that stamp starts. */
  lemma StampLenMatches(s: string)
    ensures StampLen(s) > 0 <==> exists k :: StampAt(s, k)
    ensures forall k :: StampAt(s, k) ==> StampLen(s) == |s| - k
  {
    var r := TrailingCount(s, IsAsciiDigit);
    forall k | StampAt(s, k) ensures StampLen(s) == |s| - k {
      var h := s[k..k + 9];
      assert s[k + 8] == h[8] == '.';
      forall i | |s| - (|s| - k - 9) <= i < |s| ensures IsAsciiDigit(s[i]) {
        assert s[i] == s[k + 9..][i - k - 9];
      }
      TrailingAtLeast(s, |s| - k - 9);
      assert r == |s| - k - 9;
    }
    if StampLen(s) > 0 {
      var k := |s| - r - 9;
      assert s[k + 9..] == s[|s| - r..];
      assert StampAt(s, k);
    }
  }

  /** When the last `m` characters are digits, there are at least `m` trailing digits. */
  lemma {:induction false} TrailingAtLeast(s: string, m: nat)
    requires m <= |s|
    requires forall i :: |s| - m <= i < |s| ==> IsAsciiDigit(s[i])
    ensures TrailingCount(s, IsAsciiDigit) >= m
  {
    if m > 0 {
      TrailingAtLeast(s[..|s| - 1], m - 1);
    }
  }

  /** `s` without the stamp it ends with. */
  function DropStamp(s: string): string {
    s[..|s| - StampLen(s)]
  }

  predicate IsDash(c: char) { c == '-' }

  /** `s` without its trailing dashes. */
  function DropDashes(s: string): string {
    s[..|s| - TrailingCount(s, IsDash)]
  }

  /** A substitution anchored by `$`: it applies before a final newline, which is kept. */
  function AtEnd(s: string, f: string -> string): string {
    if EndsInNewline(s) then f(s[..|s| - 1]) + "\n" else f(s)
  }

  /** The parts between the '@'s with the stamp removed from every part an '@' follows. */
  function StampFreeParts(parts: seq<string>): (r: seq<string>)
    ensures |r| == |parts|
    ensures forall i :: 0 <= i < |parts| - 1 ==> r[i] == DropStamp(parts[i])
    ensures |parts| > 0 ==> r[|parts| - 1] == parts[|parts| - 1]
  {
    seq(|parts|, i requires 0 <= i < |parts| => if i < |parts| - 1 then DropStamp(parts[i]) else parts[i])
  }

  /** `re.sub(r'\d{2}:\d{2}:\d{2}\.\d+(?=@)', '', s)`: a stamp straight before an '@' goes. */
  function DropStampsBeforeAt(s: string): string {
    Join("@", StampFreeParts(Split(s, '@')))
  }

  /** What `[^\w\.-@]` does not match: ASCII word characters and the range '.' through '@',
      which is where `.-@` inside the brackets puts it. */
  predicate Kept(c: char) {
    IsAsciiAlnum(c) || c == '_' || ('.' <= c <= '@')
  }

  /** `clean_email`: the stamp at the end, the dashes at the end, the stamps before an '@',
      every character outside the kept set, then `strip`. */
  function CleanEmail(e: string): (r: string)
    ensures AllOf(r, Kept)
  {
    var filtered := Filter(DropStampsBeforeAt(AtEnd(AtEnd(e, DropStamp), DropDashes)), Kept);
    KeptFilter(DropStampsBeforeAt(AtEnd(AtEnd(e, DropStamp), DropDashes)));
    KeptUnstripped(filtered);
    Strip(filtered)
  }

  lemma {:induction false} KeptFilter(s: string)
    ensures AllOf(Filter(s, Kept), Kept)
  {
    FilterMembers(s, Kept);
    var f := Filter(s, Kept);
    forall i | 0 <= i < |f| ensures Kept(f[i]) {
      assert f[i] in f;
    }
  }

  /** No kept character is a space, so `strip` has nothing to remove. */
  lemma KeptUnstripped(s: string)
    requires AllOf(s, Kept)
    ensures Strip(s) == s
  {
    if |s| > 0 {
      assert !IsPySpace(s[0]) && !IsPySpace(s[|s| - 1]);
    }
    TrimUnchanged(s, IsPySpace);
  }

  /** The cleaned address holds no dash, no whitespace and no newline, so the strict check on
      it is the plain full match. */
  lemma CleanedAlphabet(e: string)
    ensures var c := CleanEmail(e);
            && (forall i :: 0 <= i < |c| ==> c[i] != '-' && !IsPySpace(c[i]))
            && (IsValidEmail(c) <==> StrictMatch(c))
  {
    KeptAlphabet(CleanEmail(e));
  }

  lemma KeptAlphabet(c: string)
    requires AllOf(c, Kept)
    ensures forall i :: 0 <= i < |c| ==> c[i] != '-' && !IsPySpace(c[i])
    ensures IsValidEmail(c) <==> StrictMatch(c)
  {
    if |c| > 0 {
      assert Kept(c[|c| - 1]);
    }
  }

  /** Splitting a join of '@'-free parts on '@' gives the parts back. */
  lemma {:induction false} SplitJoin(parts: seq<string>)
    requires |parts| >= 1
    requires forall i :: 0 <= i < |parts| ==> '@' !in parts[i]
    ensures Split(Join("@", parts), '@') == parts
    decreases |parts|, |parts[0]|
  {
    if |parts| == 1 {
      SplitPlain(parts[0]);
    } else if parts[0] == [] {
      var rest := Join("@", parts[1..]);
      assert Join("@", parts) == "@" + rest;
      SplitJoin(parts[1..]);
      assert ("@" + rest)[1..] == rest;
      assert [[]] + parts[1..] == parts;
    } else {
      var p := parts[0];
      var smaller := [p[1..]] + parts[1..];
      assert Join("@", parts) == [p[0]] + Join("@", smaller) by {
        assert smaller[1..] == parts[1..];
      }
      assert p[0] in p;
      forall i | 0 <= i < |smaller| ensures '@' !in smaller[i] {
        if i == 0 {
          assert forall c :: c in p[1..] ==> c in p;
        } else {
          assert smaller[i] == parts[i];
        }
      }
      SplitJoin(smaller);
      var s := [p[0]] + Join("@", smaller);
      assert s[0] == p[0] && s[1..] == Join("@", smaller);
      assert Split(s, '@') == [[p[0]] + smaller[0]] + smaller[1..];
      assert p == [p[0]] + p[1..];
      assert [p] + parts[1..] == parts;
    }
  }

  lemma {:induction false} SplitPlain(s: string)
    requires '@' !in s
    ensures Split(s, '@') == [s]
  {
    if s != [] {
      assert s[0] in s;
      assert forall c :: c in s[1..] ==> c in s;
      SplitPlain(s[1..]);
      assert s == [s[0]] + s[1..];
    }
  }

  /** The stamps before each '@' go and nothing else: the address keeps its '@'s, the part
      after the last one is untouched and every other part loses the stamp it ends with. */
  lemma StampsBeforeAtRemoved(s: string)
    ensures var before, after := Split(s, '@'), Split(DropStampsBeforeAt(s), '@');
            && |after| == |before|
            && after[|after| - 1] == before[|before| - 1]
            && forall i :: 0 <= i < |before| - 1 ==> after[i] == DropStamp(before[i])
  {
    var parts := Split(s, '@');
    var r := StampFreeParts(parts);
    forall i | 0 <= i < |r| ensures '@' !in r[i] {
      if i < |parts| - 1 {
        PrefixKeepsOut(parts[i], |parts[i]| - StampLen(parts[i]));
      }
    }
    SplitJoin(r);
  }

  /** A prefix holds no character the whole does not. */
  lemma PrefixKeepsOut(s: string, n: nat)
    requires n <= |s| && '@' !in s
    ensures '@' !in s[..n]
  {
    assert forall c :: c in s[..n] ==> c in s;
  }
}
