/** The direct tool search behind the chat agent: `k` is read as "no limit" or as an integer,
    the search runs, and the tools found are written out as a block of lines each. Both entry
    points, `search_with_agent` and the agent tool's `_run`, do the same; they differ only in
    what they answer when something raises. */
module ToolAgent {
  import opened Wrappers
  import opened Text

  /** One hit of `search_tools`: `name`, `url`, `blurb` and `tags`. */
  datatype Tool = Tool(name: string, url: string, blurb: string, tags: seq<string>)

  /** What a call to `search_tools(query, k)` did: the tools it returned, or the text of the
      exception it raised. */
  datatype Search = Found(tools: seq<Tool>) | Raised(error: string)

  /** `search_tools` itself, which fetches and parses the directory: an oracle from the
      query and the limit to what the call did. */
  type Searcher = (string, Option<int>) -> Search

  const PricingTypes: seq<string> := ["Free", "Freemium", "Free Trial", "Paid", "Contact for Pricing"]
  const NoToolsMessage: string := "No tools found for this query."
  const Apology: string :=
    "Sorry, there was an error processing your request. Please try again with a different query."
  const ToolErrorPrefix: string := "Error searching tools: "

  // ----- int(k) -----

  predicate AllDigits(s: string) {
    forall i :: 0 <= i < |s| ==> IsAsciiDigit(s[i])
  }

  /** The value of a string of decimal digits. */
  function DigitsValue(s: string): nat
    requires AllDigits(s)
  {
    if s == [] then 0 else 10 * DigitsValue(s[..|s| - 1]) + (s[|s| - 1] as int - '0' as int)
  }

  /** Python's `int(s)` on a base-10 literal: surrounding whitespace, an optional sign, then one
      or more digits; anything else raises `ValueError`. */
  function ParseInt(s: string): Option<int> {
    ParseLiteral(Strip(s))
  }

  /** The literal once stripped. */
  function ParseLiteral(t: string): Option<int> {
    if |t| > 1 && (t[0] == '+' || t[0] == '-') && AllDigits(t[1..]) then
      Some(if t[0] == '-' then -(DigitsValue(t[1..]) as int) else DigitsValue(t[1..]))
    else if |t| > 0 && AllDigits(t) then Some(DigitsValue(t))
    else None
  }

  /** The decimal digits of `n`, most significant first. */
  function Decimal(n: nat): (r: string)
    ensures |r| > 0 && AllDigits(r)
  {
    if n < 10 then ['0' + n as char] else Decimal(n / 10) + ['0' + (n % 10) as char]
  }

  lemma {:induction false} DecimalValue(n: nat)
    ensures DigitsValue(Decimal(n)) == n
  {
    if n >= 10 {
      var r := Decimal(n);
      assert r[..|r| - 1] == Decimal(n / 10);
      DecimalValue(n / 10);
    }
  }

  /** Python's `str(n)`. */
  function IntText(n: int): string {
    if n < 0 then ['-'] + Decimal(-n) else Decimal(n)
  }

  /** `int(str(n)) == n`. */
  lemma ParseIntText(n: int)
    ensures ParseInt(IntText(n)) == Some(n)
  {
    if n < 0 {
      var m: nat := -n;
      DecimalValue(m);
      ParseSigned('-', Decimal(m));
      assert IntText(n) == ['-'] + Decimal(m);
    } else {
      DecimalValue(n);
      ParseDigits(Decimal(n));
      assert IntText(n) == Decimal(n);
    }
  }

  /** A run of digits reads as its value. */
  lemma ParseDigits(d: string)
    requires |d| > 0 && AllDigits(d)
    ensures ParseInt(d) == Some(DigitsValue(d))
  {
    DigitNotSpace(d[0]);
    DigitNotSpace(d[|d| - 1]);
    ParseStripped(d);
  }

  /** A run of digits after a sign reads as its value, negated after a minus. */
  lemma ParseSigned(sign: char, d: string)
    requires sign == '-' || sign == '+'
    requires |d| > 0 && AllDigits(d)
    ensures ParseInt([sign] + d) == Some(if sign == '-' then -(DigitsValue(d) as int) else DigitsValue(d))
  {
    var t := [sign] + d;
    assert t[0] == sign && t[|t| - 1] == d[|d| - 1];
    assert !IsPySpace(sign);
    DigitNotSpace(d[|d| - 1]);
    ParseStripped(t);
    SignedLiteral(sign, d);
  }

  lemma DigitNotSpace(c: char)
    requires IsAsciiDigit(c)
    ensures !IsPySpace(c)
  {
  }

  /** A literal with nothing to strip is read as it stands. */
  lemma ParseStripped(t: string)
    requires t != [] && !IsPySpace(t[0]) && !IsPySpace(t[|t| - 1])
    ensures ParseInt(t) == ParseLiteral(t)
  {
    TrimUnchanged(t, IsPySpace);
  }

  lemma SignedLiteral(sign: char, d: string)
    requires sign == '-' || sign == '+'
    requires |d| > 0 && AllDigits(d)
    ensures ParseLiteral([sign] + d) == Some(if sign == '-' then -(DigitsValue(d) as int) else DigitsValue(d))
  {
    assert ([sign] + d)[1..] == d;
  }

  /** "All" and plain words are not numbers. */
  lemma NotNumbers()
    ensures ParseInt("All").None? && ParseInt("").None? && ParseInt("-").None?
  {
    TrimUnchanged("All", IsPySpace);
    TrimUnchanged("-", IsPySpace);
    assert !IsAsciiDigit('A');
  }

  /** `str(e)` of the `ValueError` `int(k)` raises; written as Python writes a string without
      quotes or backslashes in it. */
  function IntError(k: string): string {
    "invalid literal for int() with base 10: '" + k + "'"
  }

  /** The limit the search is called with: none for a missing `k` or "All", else `int(k)`,
      which may raise. */
  function LimitOf(k: Option<string>): (r: Option<Option<int>>)
    ensures k.None? || k.value == "All" ==> r == Some(None)
    ensures k.Some? && k.value != "All" ==>
              (r.None? <==> ParseInt(k.value).None?) && (r.Some? ==> r.value == ParseInt(k.value))
  {
    if k.None? || k.value == "All" then Some(None)
    else match ParseInt(k.value)
      case Some(n) => Some(Some(n))
      case None => None
  }

  // ----- The result text -----

  /** `next((tag for tag in tags if tag in pricing_types), '')`. */
  function Pricing(tags: seq<string>): (r: string)
    ensures r == "" <==> forall i :: 0 <= i < |tags| ==> tags[i] !in PricingTypes
    ensures r != "" ==>
              r in PricingTypes &&
              exists i :: 0 <= i < |tags| && tags[i] == r && forall j :: 0 <= j < i ==> tags[j] !in PricingTypes
  {
    if tags == [] then ""
    else if tags[0] in PricingTypes then tags[0]
    else
      var r := Pricing(tags[1..]);
      assert forall i :: 1 <= i < |tags| ==> tags[i] == tags[1..][i - 1];
      r
  }

  /** The lines of one tool: its name, URL, description and pricing, its tags when it has
      any, and an empty line. */
  function ToolLines(t: Tool): seq<string> {
    var p := Pricing(t.tags);
    ["Tool: " + t.name, "URL: " + t.url, "Description: " + t.blurb, "Pricing: " + (if p != "" then p else "Unknown")]
    + (if t.tags != [] then ["Tags: " + Join(", ", t.tags)] else [])
    + [""]
  }

  /** The lines of all tools, in result order. */
  function Blocks(tools: seq<Tool>): seq<string> {
    if tools == [] then [] else Blocks(tools[..|tools| - 1]) + ToolLines(tools[|tools| - 1])
  }

  lemma BlocksSnoc(tools: seq<Tool>, i: nat)
    requires i < |tools|
    ensures Blocks(tools[..i + 1]) == Blocks(tools[..i]) + ToolLines(tools[i])
  {
    assert tools[..i + 1][..i] == tools[..i];
  }

  /** The lines that name a tool. */
  function ToolNameLines(lines: seq<string>): seq<string> {
    if lines == [] then []
    else ToolNameLines(lines[..|lines| - 1]) + (if StartsWith(lines[|lines| - 1], "Tool: ") then [lines[|lines| - 1]] else [])
  }

  lemma {:induction false} ToolNameLinesAppend(a: seq<string>, b: seq<string>)
    ensures ToolNameLines(a + b) == ToolNameLines(a) + ToolNameLines(b)
    decreases |b|
  {
    if b == [] {
      assert a + b == a;
    } else {
      var b' := b[..|b| - 1];
      assert (a + b)[..|a + b| - 1] == a + b';
      ToolNameLinesAppend(a, b');
    }
  }

  lemma NoToolNameLines(lines: seq<string>)
    requires forall i :: 0 <= i < |lines| ==> !StartsWith(lines[i], "Tool: ")
    ensures ToolNameLines(lines) == []
  {
    if lines != [] {
      NoToolNameLines(lines[..|lines| - 1]);
    }
  }

  /** Only the first line of a block names a tool. */
  lemma ToolLinesNamed(t: Tool)
    ensures ToolNameLines(ToolLines(t)) == ["Tool: " + t.name]
  {
    var lines := ToolLines(t);
    var rest := lines[1..];
    assert lines == [lines[0]] + rest;
    forall i | 0 <= i < |rest| ensures !StartsWith(rest[i], "Tool: ") {
      assert rest[i] == [] || rest[i][0] != 'T' || rest[i][1] == 'a';
    }
    NoToolNameLines(rest);
    ToolNameLinesAppend([lines[0]], rest);
    assert ToolNameLines([lines[0]]) == [lines[0]];
  }

  /** A "Tool: " line per tool, in result order. */
  function NameLines(tools: seq<Tool>): (r: seq<string>)
    ensures |r| == |tools|
    ensures forall i :: 0 <= i < |tools| ==> r[i] == "Tool: " + tools[i].name
  {
    if tools == [] then [] else NameLines(tools[..|tools| - 1]) + ["Tool: " + tools[|tools| - 1].name]
  }

  /** The result text names every tool once, in result order, and nothing else. */
  lemma {:induction false} BlocksNamed(tools: seq<Tool>)
    ensures ToolNameLines(Blocks(tools)) == NameLines(tools)
  {
    if tools != [] {
      var init := tools[..|tools| - 1];
      BlocksNamed(init);
      ToolNameLinesAppend(Blocks(init), ToolLines(tools[|tools| - 1]));
      ToolLinesNamed(tools[|tools| - 1]);
    }
  }

  /** Each tool takes four lines, a fifth for its tags when it has any, and the empty line. */
  lemma {:induction false} BlocksLength(tools: seq<Tool>)
    ensures |Blocks(tools)| == 5 * |tools| + |TaggedTools(tools)|
  {
    if tools != [] {
      BlocksLength(tools[..|tools| - 1]);
    }
  }

  /** The tools that have tags. */
  function TaggedTools(tools: seq<Tool>): (r: seq<Tool>)
    ensures |r| <= |tools|
  {
    if tools == [] then []
    else TaggedTools(tools[..|tools| - 1]) + (if tools[|tools| - 1].tags != [] then [tools[|tools| - 1]] else [])
  }

  /** The formatting loop: the lines of every tool appended one by one. */
  method FormatTools(tools: seq<Tool>) returns (lines: seq<string>)
    ensures lines == Blocks(tools)
  {
    lines := [];
    for i := 0 to |tools|
      invariant lines == Blocks(tools[..i])
    {
      var t := tools[i];
      var block := ["Tool: " + t.name];
      block := block + ["URL: " + t.url];
      block := block + ["Description: " + t.blurb];
      var pricing := "";
      if t.tags != [] {
        pricing := Pricing(t.tags);
      }
      block := block + ["Pricing: " + (if pricing != "" then pricing else "Unknown")];
      if t.tags != [] {
        block := block + ["Tags: " + Join(", ", t.tags)];
      }
      block := block + [""];
      assert block == ToolLines(t);
      BlocksSnoc(tools, i);
      lines := lines + block;
    }
    assert tools[..|tools|] == tools;
  }

  /** The `try` body both entry points share, up to the exception: the search with the
      limit `k` gives, or what `int(k)` raised. */
  method RunSearch(search: Searcher, query: string, k: Option<string>) returns (r: Search)
    ensures LimitOf(k).None? ==> r == Raised(IntError(k.value))
    ensures LimitOf(k).Some? ==> r == search(query, LimitOf(k).value)
  {
    if k.None? || k.value == "All" {
      r := search(query, None);
    } else {
      var n := ParseInt(k.value);
      if n.None? {
        return Raised(IntError(k.value));
      }
      r := search(query, Some(n.value));
    }
  }

  /** `search_with_agent(query, backend, k)`; `backend` is not used. */
  method SearchWithAgent(search: Searcher, query: string, backend: string, k: Option<string>) returns (reply: string)
    // A `k` that is not a number, or a search that raises, gives the apology.
    ensures LimitOf(k).None? ==> reply == Apology
    ensures LimitOf(k).Some? && search(query, LimitOf(k).value).Raised? ==> reply == Apology
    // No hits give the fixed message; otherwise the lines of every tool, joined by newlines.
    ensures LimitOf(k).Some? && search(query, LimitOf(k).value) == Found([]) ==> reply == NoToolsMessage
    ensures LimitOf(k).Some? && search(query, LimitOf(k).value).Found? && search(query, LimitOf(k).value).tools != [] ==>
              reply == Join("\n", Blocks(search(query, LimitOf(k).value).tools))
  {
    var r := RunSearch(search, query, k);
    if r.Raised? {
      return Apology;
    }
    if r.tools == [] {
      return NoToolsMessage;
    }
    var lines := FormatTools(r.tools);
    reply := Join("\n", lines);
  }

  /** `FuturepediaSearchTool._run(query, k)`: the same, except that an exception is answered
      with its own text. */
  method ToolRun(search: Searcher, query: string, k: Option<string>) returns (reply: string)
    ensures LimitOf(k).None? ==> reply == ToolErrorPrefix + IntError(k.value)
    ensures LimitOf(k).Some? && search(query, LimitOf(k).value).Raised? ==>
              reply == ToolErrorPrefix + search(query, LimitOf(k).value).error
    ensures LimitOf(k).Some? && search(query, LimitOf(k).value) == Found([]) ==> reply == NoToolsMessage
    ensures LimitOf(k).Some? && search(query, LimitOf(k).value).Found? && search(query, LimitOf(k).value).tools != [] ==>
              reply == Join("\n", Blocks(search(query, LimitOf(k).value).tools))
  {
    var r := RunSearch(search, query, k);
    if r.Raised? {
      return ToolErrorPrefix + r.error;
    }
    if r.tools == [] {
      return NoToolsMessage;
    }
    var lines := FormatTools(r.tools);
    reply := Join("\n", lines);
  }
}
