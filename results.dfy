/**
 * The mock result lines produced by every search provider of the gateway.
 *
 * Each line has the shape `<source>Result <n> for '<query>'`, where `<source>` is
 * "Google ", "Amazon " or empty (the simple mock search). The Rust code builds
 * them with `format!`; here formatting is string concatenation, and `Parse` is
 * its inverse, used as the specification of every search operation.
 */
module Results {
  import opened Wrappers

  /** Which provider a line claims to come from. */
  datatype Source = Google | Amazon | Mock

  /** The facts one result line carries: who produced it, its rank and the query. */
  datatype Hit = Hit(source: Source, rank: nat, query: string)

  /** The ranks the providers use are single decimal digits. */
  predicate ValidRank(rank: nat) {
    1 <= rank <= 9
  }

  predicate WellFormed(h: Hit) {
    ValidRank(h.rank)
  }

  /** The text put in front of "Result" for each source. */
  function Prefix(source: Source): string {
    match source
    case Google => "Google "
    case Amazon => "Amazon "
    case Mock => ""
  }

  /** The decimal digit of a rank, as `format!` writes a one-digit literal. */
  function Digit(rank: nat): (c: char)
    requires ValidRank(rank)
    ensures '1' <= c <= '9'
    ensures (c as int) - ('0' as int) == rank
  {
    (('0' as int) + rank) as char
  }

  /** The part of a line after the source prefix: `Result <rank> for '<query>'`. */
  function Body(rank: nat, query: string): string
    requires ValidRank(rank)
  {
    "Result " + [Digit(rank)] + " for '" + query + "'"
  }

  /** `format!("<source>Result <rank> for '{}'", query)`. */
  function Render(h: Hit): string
    requires WellFormed(h)
  {
    Prefix(h.source) + Body(h.rank, h.query)
  }

  predicate StartsWith(s: string, p: string) {
    |p| <= |s| && s[..|p|] == p
  }

  /** The source a line names by its first word ("Google " or "Amazon "), otherwise the mock search. */
  function SourceOf(line: string): Source {
    if StartsWith(line, "Google ") then Google
    else if StartsWith(line, "Amazon ") then Amazon
    else Mock
  }

  /** Reads `Result <rank> for '<query>'` back into a hit of the given source. */
  function ParseBody(source: Source, rest: string): Option<Hit> {
    if |rest| >= 15 && rest[..7] == "Result " && '1' <= rest[7] <= '9'
       && rest[8..14] == " for '" && rest[|rest| - 1] == '\''
    then Some(Hit(source, (rest[7] as int) - ('0' as int), rest[14..|rest| - 1]))
    else None
  }

  /** Reads a line back into its source, rank and query; `None` if it is not a result line. */
  function Parse(line: string): (r: Option<Hit>)
    ensures r.Some? ==> WellFormed(r.value)
  {
    var source := SourceOf(line);
    if |Prefix(source)| <= |line| then ParseBody(source, line[|Prefix(source)|..]) else None
  }

  /** `s` occurs in `line` as a contiguous piece. */
  predicate ContainsText(line: string, s: string) {
    exists k :: 0 <= k <= |line| && StartsWith(line[k..], s)
  }

  lemma SourceOfRender(h: Hit)
    requires WellFormed(h)
    ensures SourceOf(Render(h)) == h.source
  {
    var line := Render(h);
    assert line[|Prefix(h.source)|] == 'R';
    match h.source
    case Google =>
      assert line[..7] == "Google ";
    case Amazon =>
      assert line[0] != "Google "[0];
      assert line[..7] == "Amazon ";
    case Mock =>
      assert line[0] != "Google "[0] && line[0] != "Amazon "[0];
  }

  lemma ParseBodyRender(source: Source, rank: nat, query: string)
    requires ValidRank(rank)
    ensures ParseBody(source, Body(rank, query)) == Some(Hit(source, rank, query))
  {
    var body := Body(rank, query);
    assert body[..7] == "Result ";
    assert body[7] == Digit(rank);
    assert body[8..14] == " for '";
    assert body[14..|body| - 1] == query;
  }

  /** Parsing a rendered line gives back exactly the facts it was rendered from. */
  lemma ParseRender(h: Hit)
    requires WellFormed(h)
    ensures Parse(Render(h)) == Some(h)
  {
    SourceOfRender(h);
    assert Render(h)[|Prefix(h.source)|..] == Body(h.rank, h.query);
    ParseBodyRender(h.source, h.rank, h.query);
  }

  /** A line begins with the prefix of the source it is read as. */
  lemma SourcePrefix(line: string)
    requires |Prefix(SourceOf(line))| <= |line|
    ensures line == Prefix(SourceOf(line)) + line[|Prefix(SourceOf(line))|..]
  {
    var p := Prefix(SourceOf(line));
    assert line[..|p|] == p;
    assert line == line[..|p|] + line[|p|..];
  }

  /** A body that parses is exactly the body of what it parses to. */
  lemma ParseBodySound(source: Source, rest: string)
    requires ParseBody(source, rest).Some?
    ensures ParseBody(source, rest).value.source == source
    ensures Body(ParseBody(source, rest).value.rank, ParseBody(source, rest).value.query) == rest
  {
    var h := ParseBody(source, rest).value;
    var n := |rest|;
    assert Digit(h.rank) == rest[7];
    assert rest == rest[..7] + [rest[7]] + rest[8..14] + rest[14..n - 1] + [rest[n - 1]];
  }

  /** Parse accepts only rendered lines: a line it reads is exactly the rendering of what it read. */
  lemma ParseSound(line: string)
    requires Parse(line).Some?
    ensures Render(Parse(line).value) == line
  {
    var source := SourceOf(line);
    SourcePrefix(line);
    ParseBodySound(source, line[|Prefix(source)|..]);
  }

  /** A line parses to a well-formed hit exactly when it is that hit's rendering. */
  lemma ParseIff(line: string, h: Hit)
    requires WellFormed(h)
    ensures Parse(line) == Some(h) <==> line == Render(h)
  {
    if Parse(line) == Some(h) {
      ParseSound(line);
    } else {
      ParseRender(h);
    }
  }

  /** A rendered line written with the text before its query given as one literal. */
  lemma RenderLiteral(h: Hit, head: string)
    requires WellFormed(h)
    requires head == Prefix(h.source) + "Result " + [Digit(h.rank)] + " for '"
    ensures Render(h) == head + h.query + "'"
  {
  }

  /** The lines for a list of hits, in the same order; each parses back to its hit. */
  function RenderEach(hits: seq<Hit>): (r: seq<string>)
    requires forall k :: 0 <= k < |hits| ==> WellFormed(hits[k])
    ensures |r| == |hits|
    ensures forall k :: 0 <= k < |r| ==> r[k] == Render(hits[k])
    ensures forall k {:trigger Parse(r[k])} :: 0 <= k < |r| ==> Parse(r[k]) == Some(hits[k])
  {
    if hits == [] then []
    else
      ParseRender(hits[0]);
      [Render(hits[0])] + RenderEach(hits[1..])
  }

  /** Distinct facts never render to the same line. */
  lemma RenderInjective(h1: Hit, h2: Hit)
    requires WellFormed(h1) && WellFormed(h2)
    ensures Render(h1) == Render(h2) <==> h1 == h2
  {
    if Render(h1) == Render(h2) {
      ParseRender(h1);
      ParseRender(h2);
    }
  }

  /** Every rendered line embeds its query unchanged. */
  lemma RenderContainsQuery(h: Hit)
    requires WellFormed(h)
    ensures ContainsText(Render(h), h.query)
  {
    var head := Prefix(h.source) + "Result " + [Digit(h.rank)] + " for '";
    var line := Render(h);
    assert line == head + h.query + "'";
    var k := |head|;
    assert line[k..][..|h.query|] == h.query;
  }
}
