/** The text helpers of the landing page: the Arabic-script test, the emoji shortcodes and
    `formatAiResponse`, which lays an answer out either as a bullet list or line by line. The
    JSX it returns is modelled by the `Rendered` datatype. */
module AppView {
  import opened Text
  import opened Sorting

  // ----- isArabic -----

  /** A character of the Arabic block, U+0600 to U+06FF. */
  predicate IsArabicChar(c: char) {
    '\U{0600}' <= c <= '\U{06FF}'
  }

  /** `/[\u0600-\u06FF]/.test(text)`. */
  function IsArabic(text: string): (r: bool)
    ensures r <==> exists i :: 0 <= i < |text| && IsArabicChar(text[i])
  {
    if text == [] then false
    else if IsArabicChar(text[0]) then true
    else
      var r := IsArabic(text[1..]);
      assert forall i :: 1 <= i < |text| ==> text[i] == text[1..][i - 1];
      r
  }

  // ----- parseEmojis -----

  /** The shortcodes and their emoji, in the order they are replaced. */
  const Emojis: seq<(string, string)> :=
    [(":smile:", "\U{1F60A}"), (":rocket:", "\U{1F680}"), (":robot:", "\U{1F916}"),
     (":star:", "\U{2B50}"), (":fire:", "\U{1F525}")]

  predicate IsAscii(c: char) { c < '\U{0080}' }

  /** Every shortcode is non-empty ASCII and every emoji a non-empty run of non-ASCII
      characters. */
  predicate WellFormed(pairs: seq<(string, string)>) {
    forall i :: 0 <= i < |pairs| ==>
      && |pairs[i].0| > 0 && |pairs[i].1| > 0
      && (forall c :: c in pairs[i].0 ==> IsAscii(c))
      && (forall c :: c in pairs[i].1 ==> !IsAscii(c))
  }

  lemma EmojisWellFormed()
    ensures WellFormed(Emojis)
  {
  }

  /** The global replacements one after another. */
  function ReplaceEach(s: string, pairs: seq<(string, string)>): string
    requires forall i :: 0 <= i < |pairs| ==> |pairs[i].0| > 0
    decreases |pairs|
  {
    if pairs == [] then s else ReplaceEach(ReplaceAll(s, pairs[0].0, pairs[0].1), pairs[1..])
  }

  /** The shortcodes already dealt with stay absent while the rest are replaced, and at the
      end none of them is left. */
  lemma {:induction false} ReplaceEachAvoids(s: string, pairs: seq<(string, string)>, done: seq<string>)
    requires WellFormed(pairs)
    requires forall j :: 0 <= j < |done| ==> |done[j]| > 0 && (forall c :: c in done[j] ==> IsAscii(c))
    requires forall j :: 0 <= j < |done| ==> !Contains(s, done[j])
    ensures forall j :: 0 <= j < |done| ==> !Contains(ReplaceEach(s, pairs), done[j])
    ensures forall i :: 0 <= i < |pairs| ==> !Contains(ReplaceEach(s, pairs), pairs[i].0)
    decreases |pairs|
  {
    if pairs != [] {
      var (pat, rep) := pairs[0];
      var next := ReplaceAll(s, pat, rep);
      var done' := done + [pat];
      forall j | 0 <= j < |done'| ensures !Contains(next, done'[j]) {
        ReplaceAllAvoids(s, pat, rep, done'[j]);
      }
      assert WellFormed(pairs[1..]) by {
        forall i | 0 <= i < |pairs| - 1 ensures pairs[1..][i] == pairs[i + 1] { }
      }
      ReplaceEachAvoids(next, pairs[1..], done');
      forall i | 0 <= i < |pairs| ensures !Contains(ReplaceEach(s, pairs), pairs[i].0) {
        if i == 0 {
          assert done'[|done|] == pat;
        } else {
          assert pairs[1..][i - 1] == pairs[i];
        }
      }
      forall j | 0 <= j < |done| ensures !Contains(ReplaceEach(s, pairs), done[j]) {
        assert done'[j] == done[j];
      }
    }
  }

  /** A text none of whose patterns occur is left as it is. */
  lemma {:induction false} ReplaceEachAbsent(s: string, pairs: seq<(string, string)>, c: char)
    requires forall i :: 0 <= i < |pairs| ==> |pairs[i].0| > 0 && c in pairs[i].0
    requires c !in s
    ensures ReplaceEach(s, pairs) == s
    decreases |pairs|
  {
    if pairs != [] {
      AbsentChar(s, pairs[0].0, c);
      ReplaceAllAbsent(s, pairs[0].0, pairs[0].1);
      ReplaceEachAbsent(s, pairs[1..], c);
    }
  }

  /** A pattern with a character the text lacks does not occur in it. */
  lemma AbsentChar(s: string, p: string, c: char)
    requires c in p && c !in s
    ensures !Contains(s, p)
  {
    forall k | 0 <= k <= |s| ensures !OccursAt(s, p, k) {
      if k + |p| <= |s| {
        assert forall x :: x in s[k..k + |p|] ==> x in s;
      }
    }
  }

  /** Replacing by texts without `c` keeps a text free of `c`. */
  lemma {:induction false} ReplaceAllKeepsOut(s: string, pat: string, rep: string, c: char)
    requires |pat| > 0 && c !in s && c !in rep
    ensures c !in ReplaceAll(s, pat, rep)
    decreases |s|
  {
    if s != [] {
      if StartsWith(s, pat) {
        assert forall x :: x in s[|pat|..] ==> x in s;
        ReplaceAllKeepsOut(s[|pat|..], pat, rep, c);
      } else {
        assert forall x :: x in s[1..] ==> x in s;
        ReplaceAllKeepsOut(s[1..], pat, rep, c);
      }
    }
  }

  lemma {:induction false} ReplaceEachKeepsOut(s: string, pairs: seq<(string, string)>, c: char)
    requires WellFormed(pairs) && IsAscii(c) && c !in s
    ensures c !in ReplaceEach(s, pairs)
    decreases |pairs|
  {
    if pairs != [] {
      ReplaceAllKeepsOut(s, pairs[0].0, pairs[0].1, c);
      assert WellFormed(pairs[1..]) by {
        forall i | 0 <= i < |pairs| - 1 ensures pairs[1..][i] == pairs[i + 1] { }
      }
      ReplaceEachKeepsOut(ReplaceAll(s, pairs[0].0, pairs[0].1), pairs[1..], c);
    }
  }

  /** `parseEmojis(text)`: the five global replacements, in order. */
  function ParseEmojis(text: string): (r: string)
    // No shortcode survives, whatever the input.
    ensures forall i :: 0 <= i < |Emojis| ==> !Contains(r, Emojis[i].0)
    // A text without a colon is left as it is.
    ensures ':' !in text ==> r == text
    // No ASCII character (a line break, say) is introduced.
    ensures forall c :: IsAscii(c) && c !in text ==> c !in r
  {
    EmojisReplaced(text);
    ReplaceEach(text, Emojis)
  }

  lemma EmojisReplaced(text: string)
    ensures var r := ReplaceEach(text, Emojis);
            && (forall i :: 0 <= i < |Emojis| ==> !Contains(r, Emojis[i].0))
            && (':' !in text ==> r == text)
            && (forall c :: IsAscii(c) && c !in text ==> c !in r)
  {
    EmojisWellFormed();
    var r := ReplaceEach(text, Emojis);
    ReplaceEachAvoids(text, Emojis, []);
    if ':' !in text {
      ReplaceEachAbsent(text, Emojis, ':');
    }
    forall c | IsAscii(c) && c !in text ensures c !in r {
      ReplaceEachKeepsOut(text, Emojis, c);
    }
  }

  // ----- formatAiResponse -----

  /** `text.split(/\r?\n/)`: split at each line feed, and drop the carriage return that ends
      every line but the last. */
  function SplitLines(text: string): (r: seq<string>)
    ensures |r| >= 1
    ensures forall i :: 0 <= i < |r| ==> '\n' !in r[i]
    ensures forall i, c :: 0 <= i < |r| && c in r[i] ==> c in text
  {
    var parts := Split(text, '\n');
    SplitChars(text, '\n');
    seq(|parts|, i requires 0 <= i < |parts| => if i < |parts| - 1 then DropCR(parts[i]) else parts[i])
  }

  /** A line without the one carriage return that ends it. */
  function DropCR(s: string): (r: string)
    ensures forall c :: c in r ==> c in s
    ensures '\r' !in s ==> r == s
  {
    if |s| > 0 && s[|s| - 1] == '\r' then s[..|s| - 1] else s
  }

  /** The pieces of a split are made of the text's own characters. */
  lemma {:induction false} SplitChars(s: string, sep: char)
    ensures forall i, c :: 0 <= i < |Split(s, sep)| && c in Split(s, sep)[i] ==> c in s
  {
    if s != [] {
      SplitChars(s[1..], sep);
      var rest := Split(s[1..], sep);
      assert forall c :: c in s[1..] ==> c in s;
      if s[0] != sep {
        assert forall c :: c in [s[0]] + rest[0] ==> c == s[0] || c in rest[0];
        assert forall i :: 1 <= i < |rest| ==> (rest[1..])[i - 1] == rest[i];
      } else {
        assert forall i :: 1 <= i < |Split(s, sep)| ==> Split(s, sep)[i] == rest[i - 1];
      }
    }
  }

  /** Without carriage returns, joining the lines again gives back the text. */
  lemma SplitLinesJoin(text: string)
    requires '\r' !in text
    ensures Join("\n", SplitLines(text)) == text
  {
    SplitChars(text, '\n');
    var parts := Split(text, '\n');
    assert SplitLines(text) == parts;
    JoinSplit(text, '\n');
  }

  /** The test `line.trim() !== ""`. */
  predicate NonBlank(line: string) { JsTrim(line) != [] }

  /** The lines `formatAiResponse` works on. */
  function AnswerLines(text: string): seq<string> {
    Filter(SplitLines(text), NonBlank)
  }

  /** The characters of `[-*•\d+\.]`. */
  predicate IsMarker(c: char) {
    c == '-' || c == '*' || c == '•' || IsAsciiDigit(c) || c == '+' || c == '.'
  }

  /** `/^[-*•\d+\.]/.test(line.trim())`. */
  predicate IsBulletLine(line: string) {
    var t := JsTrim(line);
    t != [] && IsMarker(t[0])
  }

  /** `line.replace(/^[-*•\d+\.]+/, "").trim()`: the run of markers at the very start of the
      line (before any trimming) is dropped, then the rest is trimmed. */
  function StripMarker(line: string): string {
    JsTrim(line[LeadingCount(line, IsMarker)..])
  }

  /** One line of the paragraph layout. */
  datatype Line = BulletLine(text: string) | PlainLine(text: string)

  /** What `formatAiResponse` renders: a `<ul>` of items, or one `<div>` per line. */
  datatype Rendered = BulletList(items: seq<string>) | Paragraphs(lines: seq<Line>)

  function BulletText(line: string): string { ParseEmojis(StripMarker(line)) }

  function RenderLine(line: string): Line {
    if IsBulletLine(line) then BulletLine(BulletText(line)) else PlainLine(ParseEmojis(line))
  }

  function BulletTexts(lines: seq<string>): (r: seq<string>)
    ensures |r| == |lines| && forall i :: 0 <= i < |lines| ==> r[i] == BulletText(lines[i])
  {
    seq(|lines|, i requires 0 <= i < |lines| => BulletText(lines[i]))
  }

  function RenderLines(lines: seq<string>): (r: seq<Line>)
    ensures |r| == |lines| && forall i :: 0 <= i < |lines| ==> r[i] == RenderLine(lines[i])
  {
    seq(|lines|, i requires 0 <= i < |lines| => RenderLine(lines[i]))
  }

  /** `formatAiResponse(text)`. */
  function FormatAiResponse(text: string): (r: Rendered)
    // The list layout is chosen exactly when more than two non-blank lines are bullets; it
    // keeps the bullets, in order, without their markers, and drops every other line.
    ensures var bullets := Filter(AnswerLines(text), IsBulletLine);
            && (r.BulletList? <==> |bullets| > 2)
            && (r.BulletList? ==>
                  && |r.items| == |bullets|
                  && forall j :: 0 <= j < |bullets| ==> r.items[j] == ParseEmojis(StripMarker(bullets[j])))
    // Otherwise every non-blank line is kept, in order, and marked as a bullet exactly when
    // it is one.
    ensures var lines := AnswerLines(text);
            r.Paragraphs? ==>
              && |r.lines| == |lines|
              && forall i :: 0 <= i < |lines| ==>
                   && (r.lines[i].BulletLine? <==> IsBulletLine(lines[i]))
                   && r.lines[i].text == (if IsBulletLine(lines[i]) then ParseEmojis(StripMarker(lines[i])) else ParseEmojis(lines[i]))
  {
    var lines := AnswerLines(text);
    var bullets := Filter(lines, IsBulletLine);
    if |bullets| > 2 then BulletList(BulletTexts(bullets)) else Paragraphs(RenderLines(lines))
  }

  /** Every piece of rendered text comes from one source line: no line feed is left in it. */
  lemma {:induction false} RenderedTextsAreLines(text: string)
    ensures var r := FormatAiResponse(text);
            && (r.BulletList? ==> forall j :: 0 <= j < |r.items| ==> '\n' !in r.items[j])
            && (r.Paragraphs? ==> forall i :: 0 <= i < |r.lines| ==> '\n' !in r.lines[i].text)
  {
    var lines := AnswerLines(text);
    FilterMembers(SplitLines(text), NonBlank);
    var bullets := Filter(lines, IsBulletLine);
    if |bullets| > 2 {
      FilterMembers(lines, IsBulletLine);
      var items := BulletTexts(bullets);
      assert FormatAiResponse(text) == BulletList(items);
      forall j | 0 <= j < |items| ensures '\n' !in items[j] {
        assert bullets[j] in bullets;
        OneLine(bullets[j]);
      }
    } else {
      var rendered := RenderLines(lines);
      assert FormatAiResponse(text) == Paragraphs(rendered);
      forall i | 0 <= i < |rendered| ensures '\n' !in rendered[i].text {
        assert lines[i] in lines;
        OneLine(lines[i]);
      }
    }
  }

  lemma OneLine(l: string)
    requires '\n' !in l
    ensures '\n' !in BulletText(l) && '\n' !in ParseEmojis(l)
  {
    var rest := l[LeadingCount(l, IsMarker)..];
    assert forall x :: x in rest ==> x in l;
    assert forall x :: x in JsTrim(rest) ==> x in rest;
  }

  /** A bullet whose marker is indented keeps its marker: only the whitespace is removed. */
  lemma IndentedMarkerKept(line: string)
    requires |line| > 0 && IsJsSpace(line[0])
    ensures StripMarker(line) == JsTrim(line)
  {
  }

  /** A line that starts with a number counts as a bullet, and the number is dropped: a
      paragraph that opens with a year loses the year. */
  lemma NumberedLine(digits: string, rest: string)
    requires |digits| > 0 && forall i :: 0 <= i < |digits| ==> IsAsciiDigit(digits[i])
    requires rest == [] || !IsMarker(rest[0])
    ensures IsBulletLine(digits + rest)
    ensures StripMarker(digits + rest) == JsTrim(rest)
  {
    var line := digits + rest;
    assert line[0] == digits[0] && !IsJsSpace(line[0]);
    assert forall i :: 0 <= i < |digits| ==> IsMarker(line[i]);
    assert |digits| < |line| ==> line[|digits|] == rest[0];
    var n := LeadingCount(line, IsMarker);
    assert n < |digits| ==> IsMarker(line[n]);
    assert n == |digits|;
    assert line[|digits|..] == rest;
    assert LeadingCount(line, IsJsSpace) == 0;
  }
}
