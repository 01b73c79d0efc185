/** String helpers shared by the model: stripping, joining, splitting and literal replacement,
    each with the behaviour of the Python or JavaScript built-in it stands for. */
module Text {

  /** Python's `str.isspace()` on one character: the characters `str.strip()` removes. */
  predicate IsPySpace(c: char) {
    c == ' ' || ('\t' <= c <= '\r') || ('\U{1C}' <= c <= '\U{1F}') || c == '\U{85}' || c == '\U{A0}'
    || c == '\U{1680}' || ('\U{2000}' <= c <= '\U{200A}') || c == '\U{2028}' || c == '\U{2029}'
    || c == '\U{202F}' || c == '\U{205F}' || c == '\U{3000}'
  }

  /** The characters JavaScript's `String.prototype.trim()` removes. */
  predicate IsJsSpace(c: char) {
    c == ' ' || ('\t' <= c <= '\r') || c == '\U{A0}' || c == '\U{1680}' || ('\U{2000}' <= c <= '\U{200A}')
    || c == '\U{2028}' || c == '\U{2029}' || c == '\U{202F}' || c == '\U{205F}' || c == '\U{3000}' || c == '\U{FEFF}'
  }

  predicate IsAsciiDigit(c: char) { '0' <= c <= '9' }

  predicate IsAsciiLetter(c: char) { ('a' <= c <= 'z') || ('A' <= c <= 'Z') }

  predicate IsAsciiAlnum(c: char) { IsAsciiDigit(c) || IsAsciiLetter(c) }

  /** Every character of `s` is a space for `isSpace`. */
  predicate AllSpace(s: string, isSpace: char -> bool) {
    forall i :: 0 <= i < |s| ==> isSpace(s[i])
  }

  /** Python's `not s or s.isspace()`. */
  predicate IsBlank(s: string) {
    AllSpace(s, IsPySpace)
  }

  /** Number of leading spaces of `s`. */
  function LeadingCount(s: string, isSpace: char -> bool): (n: nat)
    ensures n <= |s|
    ensures forall i :: 0 <= i < n ==> isSpace(s[i])
    ensures n < |s| ==> !isSpace(s[n])
  {
    if |s| > 0 && isSpace(s[0]) then 1 + LeadingCount(s[1..], isSpace) else 0
  }

  /** Number of trailing spaces of `s`. */
  function TrailingCount(s: string, isSpace: char -> bool): (n: nat)
    ensures n <= |s|
    ensures forall i :: |s| - n <= i < |s| ==> isSpace(s[i])
    ensures n < |s| ==> !isSpace(s[|s| - 1 - n])
  {
    if |s| > 0 && isSpace(s[|s| - 1]) then 1 + TrailingCount(s[..|s| - 1], isSpace) else 0
  }

  /** The characters of `s[a..]` that are trailing spaces are trailing spaces of `s`, and
      the last character kept is not a space. */
  lemma TrailingOfSuffix(s: string, isSpace: char -> bool, a: nat)
    requires a <= |s|
    ensures var b := TrailingCount(s[a..], isSpace);
            && (forall i :: |s| - b <= i < |s| ==> isSpace(s[i]))
            && (a + b < |s| ==> !isSpace(s[|s| - 1 - b]))
  {
    var t := s[a..];
    assert forall i :: a <= i < |s| ==> s[i] == t[i - a];
  }

  /** Remove leading and trailing spaces: the result is the slice of `s` between its first and
      last non-space characters, and is empty exactly when `s` is all spaces. */
  function Trim(s: string, isSpace: char -> bool): (r: string)
    ensures LeadingCount(s, isSpace) + |r| <= |s|
    ensures r == s[LeadingCount(s, isSpace)..LeadingCount(s, isSpace) + |r|]
    ensures forall i :: LeadingCount(s, isSpace) + |r| <= i < |s| ==> isSpace(s[i])
    ensures r == [] || (!isSpace(r[0]) && !isSpace(r[|r| - 1]))
    ensures r == [] <==> AllSpace(s, isSpace)
  {
    var a := LeadingCount(s, isSpace);
    var b := TrailingCount(s[a..], isSpace);
    TrailingOfSuffix(s, isSpace, a);
    s[a..|s| - b]
  }

  /** Python's `str.strip()`. */
  function Strip(s: string): (r: string)
    ensures r == Trim(s, IsPySpace)
  {
    Trim(s, IsPySpace)
  }

  /** JavaScript's `String.prototype.trim()`. */
  function JsTrim(s: string): (r: string)
    ensures r == Trim(s, IsJsSpace)
  {
    Trim(s, IsJsSpace)
  }

  /** A string without surrounding spaces is its own trim; hence trimming is idempotent. */
  lemma TrimUnchanged(s: string, isSpace: char -> bool)
    requires s == [] || (!isSpace(s[0]) && !isSpace(s[|s| - 1]))
    ensures Trim(s, isSpace) == s
  {
    if s != [] {
      assert LeadingCount(s, isSpace) == 0;
      assert TrailingCount(s, isSpace) == 0;
    }
  }

  lemma TrimIdempotent(s: string, isSpace: char -> bool)
    ensures Trim(Trim(s, isSpace), isSpace) == Trim(s, isSpace)
  {
    TrimUnchanged(Trim(s, isSpace), isSpace);
  }

  /** `sep.join(parts)`. */
  function Join(sep: string, parts: seq<string>): string {
    if |parts| == 0 then ""
    else if |parts| == 1 then parts[0]
    else parts[0] + sep + Join(sep, parts[1..])
  }

  /** Appending one more part to a non-empty join adds one separator and the part. */
  lemma {:induction false} JoinSnoc(sep: string, parts: seq<string>, p: string)
    ensures Join(sep, parts + [p]) == if parts == [] then p else Join(sep, parts) + sep + p
  {
    if |parts| >= 2 {
      assert (parts + [p])[1..] == parts[1..] + [p];
      JoinSnoc(sep, parts[1..], p);
    } else if |parts| == 1 {
      assert (parts + [p])[1..] == [p];
    }
  }

  /** The texts of `items` one after the other, as a loop that appends `f(item)` builds them. */
  function ConcatMap<T>(items: seq<T>, f: T -> string): string {
    if items == [] then "" else ConcatMap(items[..|items| - 1], f) + f(items[|items| - 1])
  }

  lemma {:induction false} ConcatMapSnoc<T>(items: seq<T>, i: nat, f: T -> string)
    requires i < |items|
    ensures ConcatMap(items[..i + 1], f) == ConcatMap(items[..i], f) + f(items[i])
  {
    assert items[..i + 1][..i] == items[..i];
  }

  /** The texts of two runs of items, one after the other. */
  lemma {:induction false} ConcatMapAppend<T>(a: seq<T>, b: seq<T>, f: T -> string)
    ensures ConcatMap(a + b, f) == ConcatMap(a, f) + ConcatMap(b, f)
  {
    if b == [] {
      assert a + b == a;
    } else {
      var init := b[..|b| - 1];
      ConcatMapAppend(a, init, f);
      assert (a + b)[..|a + b| - 1] == a + init;
    }
  }

  /** Item `i`'s text stands between the texts of the items before and after it. */
  lemma {:induction false} ConcatMapAt<T>(items: seq<T>, i: nat, f: T -> string)
    requires i < |items|
    ensures ConcatMap(items, f) == ConcatMap(items[..i], f) + f(items[i]) + ConcatMap(items[i + 1..], f)
  {
    var pre, x, post := items[..i], [items[i]], items[i + 1..];
    assert items == pre + x + post;
    ConcatMapAppend(pre + x, post, f);
    ConcatMapAppend(pre, x, f);
    assert ConcatMap(x, f) == f(items[i]) by {
      assert x[..0] == [];
      assert ConcatMap(x, f) == "" + f(items[i]);
    }
  }

  predicate StartsWith(s: string, prefix: string) {
    |prefix| <= |s| && s[..|prefix|] == prefix
  }

  /** `p` occurs in `s` at index `k`. */
  predicate OccursAt(s: string, p: string, k: int) {
    0 <= k && k + |p| <= |s| && s[k..k + |p|] == p
  }

  /** Python's `p in s`. */
  predicate Contains(s: string, p: string) {
    exists k :: 0 <= k <= |s| && OccursAt(s, p, k)
  }

  /** Python's `s.replace(pat, rep)` and JavaScript's `s.replace(/pat/g, rep)` for a literal,
      non-empty pattern: occurrences are found left to right and never overlap. */
  function ReplaceAll(s: string, pat: string, rep: string): string
    requires |pat| > 0
    decreases |s|
  {
    if s == [] then []
    else if StartsWith(s, pat) then rep + ReplaceAll(s[|pat|..], pat, rep)
    else [s[0]] + ReplaceAll(s[1..], pat, rep)
  }

  /** A string that does not contain the pattern is left as it is. */
  lemma {:induction false} ReplaceAllAbsent(s: string, pat: string, rep: string)
    requires |pat| > 0 && !Contains(s, pat)
    ensures ReplaceAll(s, pat, rep) == s
  {
    if s != [] {
      assert !OccursAt(s, pat, 0);
      forall k | OccursAt(s[1..], pat, k) ensures false {
        assert s[1..][k..k + |pat|] == s[k + 1..k + 1 + |pat|];
        assert OccursAt(s, pat, k + 1);
      }
      ReplaceAllAbsent(s[1..], pat, rep);
    }
  }

  /** Output that starts with a replacement starts with a character of it. */
  lemma ReplaceAllHead(t: string, pat: string, rep: string)
    requires |pat| > 0 && |rep| > 0 && StartsWith(t, pat)
    ensures |ReplaceAll(t, pat, rep)| > 0 && ReplaceAll(t, pat, rep)[0] in rep
  {
    assert ReplaceAll(t, pat, rep)[0] == rep[0];
  }

  /** As long as the output shows no character of the replacement, it copies the input. */
  lemma {:induction false} ReplaceAllPrefix(t: string, pat: string, rep: string, j: nat)
    requires |pat| > 0 && |rep| > 0
    requires j <= |ReplaceAll(t, pat, rep)|
    requires forall k :: 0 <= k < j ==> ReplaceAll(t, pat, rep)[k] !in rep
    ensures j <= |t| && ReplaceAll(t, pat, rep)[..j] == t[..j]
    decreases |t|
  {
    var out := ReplaceAll(t, pat, rep);
    if t != [] && j > 0 {
      assert out[0] !in rep;
      if StartsWith(t, pat) { ReplaceAllHead(t, pat, rep); }
      var y := ReplaceAll(t[1..], pat, rep);
      assert out == [t[0]] + y;
      forall k | 0 <= k < j - 1 ensures y[k] !in rep { assert out[k + 1] == y[k]; }
      ReplaceAllPrefix(t[1..], pat, rep, j - 1);
      assert out[..j] == [t[0]] + y[..j - 1];
      assert t[..j] == [t[0]] + t[1..][..j - 1];
    }
  }

  lemma OccursShift(s: string, q: string, d: nat, k: int)
    requires d <= |s| && OccursAt(s[d..], q, k)
    ensures OccursAt(s, q, k + d)
  {
    assert s[d..][k..k + |q|] == s[k + d..k + d + |q|];
  }

  lemma OccursTail(h: string, y: string, q: string, k: int)
    requires OccursAt(h + y, q, k) && k >= |h|
    ensures OccursAt(y, q, k - |h|)
  {
    assert (h + y)[k..k + |q|] == y[k - |h|..k - |h| + |q|];
  }

  /** If `q` starts a text `[c] + y`, the characters of `y` it covers are characters of `q`,
      so none of them is a character of a text whose characters avoid `q`. */
  lemma CoveredAvoid(c: char, y: string, q: string, rep: string)
    requires |q| > 0 && OccursAt([c] + y, q, 0)
    requires forall ch :: ch in rep ==> ch !in q
    ensures |q| - 1 <= |y|
    ensures forall i :: 0 <= i < |q| - 1 ==> y[i] !in rep
  {
    forall i | 0 <= i < |q| - 1 ensures y[i] !in rep {
      assert y[i] == ([c] + y)[..|q|][i + 1] == q[i + 1];
      assert q[i + 1] in q;
    }
  }

  /** Where the text does not start with the pattern, its first character is kept. */
  lemma ReplaceAllKeepsFirst(s: string, pat: string, rep: string)
    requires |pat| > 0 && s != [] && !StartsWith(s, pat)
    ensures ReplaceAll(s, pat, rep) == [s[0]] + ReplaceAll(s[1..], pat, rep)
  {
  }

  /** An occurrence at the very front of the output, when the input does not start with the
      pattern and `q` shares no character with the replacement, was already in the input. */
  lemma FrontOccurrence(s: string, pat: string, rep: string, q: string)
    requires |pat| > 0 && |rep| > 0 && |q| > 0 && s != [] && !StartsWith(s, pat)
    requires forall c :: c in rep ==> c !in q
    requires OccursAt(ReplaceAll(s, pat, rep), q, 0)
    ensures OccursAt(s, q, 0)
  {
    var y := ReplaceAll(s[1..], pat, rep);
    var m := |q| - 1;
    ReplaceAllKeepsFirst(s, pat, rep);
    CoveredAvoid(s[0], y, q, rep);
    ReplaceAllPrefix(s[1..], pat, rep, m);
    assert s[..|q|] == [s[0]] + s[1..][..m];
    assert ([s[0]] + y)[..|q|] == [s[0]] + y[..m];
  }

  /** Replacing `pat` by a non-empty text none of whose characters occurs in `q` leaves no
      occurrence of `q`, provided `q` is the pattern itself or did not occur beforehand. */
  lemma {:induction false} ReplaceAllAvoids(s: string, pat: string, rep: string, q: string)
    requires |pat| > 0 && |rep| > 0 && |q| > 0
    requires forall c :: c in rep ==> c !in q
    requires q == pat || !Contains(s, q)
    ensures !Contains(ReplaceAll(s, pat, rep), q)
    decreases |s|
  {
    var out := ReplaceAll(s, pat, rep);
    if s == [] {
      assert !OccursAt(out, q, 0);
    } else {
      var skip := if StartsWith(s, pat) then |pat| else 1;
      var head := if StartsWith(s, pat) then rep else [s[0]];
      var y := ReplaceAll(s[skip..], pat, rep);
      assert out == head + y;
      if q != pat {
        forall k | 0 <= k <= |s[skip..]| ensures !OccursAt(s[skip..], q, k) {
          if OccursAt(s[skip..], q, k) { OccursShift(s, q, skip, k); }
        }
      }
      ReplaceAllAvoids(s[skip..], pat, rep, q);
      forall k | 0 <= k <= |out| ensures !OccursAt(out, q, k) {
        if k >= |head| {
          if OccursAt(out, q, k) { OccursTail(head, y, q, k); }
        } else if StartsWith(s, pat) {
          if k + |q| <= |out| {
            assert out[k..k + |q|][0] == rep[k];
            assert rep[k] in rep && q[0] in q;
          }
        } else if OccursAt(out, q, k) {
          FrontOccurrence(s, pat, rep, q);
        }
      }
    }
  }

  /** Python's `s.split(sep)` for a one-character separator (JavaScript's `split` agrees). */
  function Split(s: string, sep: char): (r: seq<string>)
    ensures |r| >= 1
    ensures forall i :: 0 <= i < |r| ==> sep !in r[i]
  {
    if s == [] then [[]]
    else
      var rest := Split(s[1..], sep);
      if s[0] == sep then [[]] + rest else [[s[0]] + rest[0]] + rest[1..]
  }

  /** Splitting and joining again with the same separator gives back the original text. */
  lemma {:induction false} JoinSplit(s: string, sep: char)
    ensures Join([sep], Split(s, sep)) == s
  {
    if s != [] {
      var rest := Split(s[1..], sep);
      JoinSplit(s[1..], sep);
      if s[0] == sep {
        assert Join([sep], [[]] + rest) == [] + [sep] + Join([sep], rest);
      } else {
        var parts := [[s[0]] + rest[0]] + rest[1..];
        if |rest| == 1 {
          assert parts == [[s[0]] + rest[0]];
        } else {
          assert parts[1..] == rest[1..];
          assert Join([sep], rest) == rest[0] + [sep] + Join([sep], rest[1..]);
        }
      }
    }
  }

  /** Python's `s[:n]` for a non-negative `n`. */
  function Take(s: string, n: nat): (r: string)
    ensures |r| == if n < |s| then n else |s|
    ensures StartsWith(s, r)
  {
    if n < |s| then s[..n] else s
  }
}
