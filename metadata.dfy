/** Card files: a "---" delimited YAML front matter followed by a markdown
    body (internal/metadata/parser.go). YAML decoding and title casing are
    parameters; the line split, body clean-up and defaulting are modelled. */
module Metadata {

  import opened Wrappers
  import opened StringUtil
  import opened Values
  import opened TextFormat

  /** A parsed card. `metadata` holds every front-matter key as decoded. */
  datatype Card = Card(
    tcg: string,
    cardStyle: string,
    title: string,
    cardType: string,
    rarity: string,
    cardSet: string,
    artist: string,
    printThis: int,
    printTotal: int,
    body: string,
    bodySize: int,
    artwork: string,
    rulesText: string,
    flavorText: string,
    manaCost: string,
    metadata: map<string, Value>,
    sourceFile: string)

  /** The zero Card. */
  const EmptyCard := Card("", "", "", "", "", "", "", 0, 0, "", 0, "", "", "", "", map[], "")

  /** The two YAML decodings ParseFile performs: into the generic map, and into
      the typed fields of a card (which keeps what it is not given). */
  datatype YamlDecoder = YamlDecoder(
    toMap: string -> Result<map<string, Value>, string>,
    toCard: (string, Card) -> Result<Card, string>)

  // ---------------------------------------------------------------------------
  // Lines (bufio.ScanLines)
  // ---------------------------------------------------------------------------

  function DropCR(line: string): (r: string)
    ensures r == line || (|line| > 0 && line[|line| - 1] == '\r' && r == line[..|line| - 1])
  {
    if |line| > 0 && line[|line| - 1] == '\r' then line[..|line| - 1] else line
  }

  /** The lines a line scanner yields: the data cut at every "\n", one '\r'
      dropped from each line's end, and no empty last line after a final
      newline. */
  function ScanLines(data: string): (lines: seq<string>)
    ensures |lines| <= |Split(data, "\n")|
  {
    var parts := Split(data, "\n");
    var ps := if parts[|parts| - 1] == "" then parts[..|parts| - 1] else parts;
    seq(|ps|, k requires 0 <= k < |ps| => DropCR(ps[k]))
  }

  /** No scanned line holds a newline. */
  lemma ScanLinesNoNewline(data: string)
    ensures forall k :: 0 <= k < |ScanLines(data)| ==> !Contains(ScanLines(data)[k], "\n")
  {
    var parts := Split(data, "\n");
    forall k | 0 <= k < |ScanLines(data)|
      ensures !Contains(ScanLines(data)[k], "\n")
    {
      assert ScanLines(data)[k] == DropCR(parts[k]);
      NotContainsPrefix(parts[k], "\n", |DropCR(parts[k])|);
      assert parts[k][..|DropCR(parts[k])|] == DropCR(parts[k]);
    }
  }

  /** Rejoining the scanned lines of text that has no '\r' and ends without a
      newline gives back the text. */
  lemma ScanLinesJoin(data: string)
    requires forall i :: 0 <= i < |data| ==> data[i] != '\r'
    requires data != "" && data[|data| - 1] != '\n'
    ensures Join(ScanLines(data), "\n") == data
  {
    var parts := Split(data, "\n");
    JoinSplit(data, "\n");
    SplitLastEmpty(data, "\n");
    assert parts[|parts| - 1] != "";
    forall k | 0 <= k < |parts|
      ensures DropCR(parts[k]) == parts[k]
    {
      SplitPartChars(data, "\n", k);
      if |parts[k]| > 0 {
        assert parts[k][|parts[k]| - 1] in parts[k];
      }
    }
    assert ScanLines(data) == parts;
  }

  // ---------------------------------------------------------------------------
  // Front matter
  // ---------------------------------------------------------------------------

  /** The first index at or after `from` holding the delimiter "---", or |lines|. */
  function CloseIndex(lines: seq<string>, from: nat): (j: nat)
    requires from <= |lines|
    ensures from <= j <= |lines|
    ensures j < |lines| ==> lines[j] == "---"
    ensures forall i :: from <= i < j ==> lines[i] != "---"
    decreases |lines| - from
  {
    if from == |lines| || lines[from] == "---" then from else CloseIndex(lines, from + 1)
  }

  /** The front-matter lines and the body lines, or None when the first line is
      not exactly "---". Without a closing "---" every line is front matter. */
  function FrontMatterSplit(lines: seq<string>): Option<(seq<string>, seq<string>)>
  {
    if |lines| == 0 || lines[0] != "---" then None
    else
      var j := CloseIndex(lines, 1);
      if j == |lines| then Some((lines[1..], []))
      else Some((lines[1..j], lines[j + 1..]))
  }

  /** Front matter is missing exactly when the first line is not "---". */
  lemma FrontMatterMissing(lines: seq<string>)
    ensures FrontMatterSplit(lines).None? <==> |lines| == 0 || lines[0] != "---"
  {
  }

  /** The split takes the file apart at its delimiters: the opening "---", the
      front matter (which holds no "---"), then either the closing "---" and the
      body, or nothing at all and an empty body. */
  lemma FrontMatterParts(lines: seq<string>)
    requires FrontMatterSplit(lines).Some?
    ensures var (fm, body) := FrontMatterSplit(lines).value;
      && (forall i :: 0 <= i < |fm| ==> fm[i] != "---")
      && (lines == ["---"] + fm + ["---"] + body || (lines == ["---"] + fm && body == []))
  {
    var j := CloseIndex(lines, 1);
    var (fm, body) := FrontMatterSplit(lines).value;
    if j == |lines| {
      assert lines == ["---"] + fm;
    } else {
      assert lines == ["---"] + fm + ["---"] + body;
    }
  }

  /** ParseFile's two scanning loops: the front-matter lines up to the closing
      delimiter, then every remaining line. */
  method SplitFrontMatter(lines: seq<string>) returns (r: Option<(seq<string>, seq<string>)>)
    ensures r == FrontMatterSplit(lines)
  {
    if |lines| == 0 || lines[0] != "---" {
      return None;
    }
    var frontmatterLines: seq<string> := [];
    var i := 1;
    while i < |lines| && lines[i] != "---"
      invariant 1 <= i <= |lines|
      invariant frontmatterLines == lines[1..i]
      invariant CloseIndex(lines, 1) == CloseIndex(lines, i)
    {
      frontmatterLines := frontmatterLines + [lines[i]];
      i := i + 1;
    }
    assert CloseIndex(lines, i) == i;
    var bodyLines: seq<string> := [];
    if i < |lines| {
      var k := i + 1;
      while k < |lines|
        invariant i + 1 <= k <= |lines|
        invariant bodyLines == lines[i + 1..k]
      {
        bodyLines := bodyLines + [lines[k]];
        k := k + 1;
      }
      assert lines[i + 1..k] == lines[i + 1..];
    } else {
      assert lines[1..i] == lines[1..];
    }
    return Some((frontmatterLines, bodyLines));
  }

  // ---------------------------------------------------------------------------
  // Body (processBody)
  // ---------------------------------------------------------------------------

  /** The body text: header lines dropped, the rest joined with "\n", trimmed. */
  function BodyText(lines: seq<string>): string
  {
    TrimSpace(Join(NonHeaderLines(lines), "\n"))
  }

  method ProcessBody(lines: seq<string>) returns (body: string)
    ensures body == BodyText(lines)
  {
    var cleanLines: seq<string> := [];
    var i := 0;
    while i < |lines|
      invariant 0 <= i <= |lines|
      invariant cleanLines == NonHeaderLines(lines[..i])
    {
      if !IsHeaderLine(lines[i]) {
        cleanLines := cleanLines + [lines[i]];
      }
      NonHeaderLinesSnoc(lines[..i], lines[i]);
      assert lines[..i + 1] == lines[..i] + [lines[i]];
      i := i + 1;
    }
    assert lines[..i] == lines;
    body := TrimSpace(Join(cleanLines, "\n"));
  }

  /** The body has no surrounding white space. */
  lemma BodyTextTrimmed(lines: seq<string>)
    ensures TrimSpace(BodyText(lines)) == BodyText(lines)
  {
    TrimSpaceIdempotent(Join(NonHeaderLines(lines), "\n"));
  }

  /** Before trimming, the body's lines are exactly the non-header lines, in
      order and verbatim, when (as for scanned lines) no line holds "\n". */
  lemma BodyLinesKept(lines: seq<string>)
    requires forall k :: 0 <= k < |lines| ==> !Contains(lines[k], "\n")
    requires |NonHeaderLines(lines)| > 0
    ensures Split(Join(NonHeaderLines(lines), "\n"), "\n") == NonHeaderLines(lines)
  {
    var kept := NonHeaderLines(lines);
    forall k | 0 <= k < |kept|
      ensures !Contains(kept[k], "\n")
    {
      assert kept[k] in lines;
    }
    SplitJoin(kept, "\n");
  }

  /** A body made only of headers is empty. */
  lemma BodyAllHeaders(lines: seq<string>)
    requires forall k :: 0 <= k < |lines| ==> IsHeaderLine(lines[k])
    ensures BodyText(lines) == ""
  {
    AllHeadersDropped(lines);
    assert Join([], "\n") == "";
    TrimSpaceEmptyIffBlank("");
  }

  lemma {:induction false} AllHeadersDropped(lines: seq<string>)
    requires forall k :: 0 <= k < |lines| ==> IsHeaderLine(lines[k])
    ensures NonHeaderLines(lines) == []
    decreases |lines|
  {
    if |lines| > 0 {
      AllHeadersDropped(lines[1..]);
    }
  }

  // ---------------------------------------------------------------------------
  // Defaults (setDefaults)
  // ---------------------------------------------------------------------------

  /** The file's base name without its extension. */
  function Stem(filePath: string): string
  {
    var base := Base(filePath);
    base[..|base| - |Ext(base)|]
  }

  /** The file's base name without its extension, '_' replaced by ' '. */
  function TitleSource(filePath: string): (r: string)
    ensures forall i :: 0 <= i < |r| ==> r[i] != '_'
  {
    ReplaceChar(Stem(filePath), '_', ' ');
    ReplaceAll(Stem(filePath), "_", " ")
  }

  /** Replacing the underscores keeps every other character in place. */
  lemma TitleSourceChars(filePath: string)
    ensures |TitleSource(filePath)| == |Stem(filePath)|
    ensures forall i :: 0 <= i < |Stem(filePath)| ==>
      TitleSource(filePath)[i] == (if Stem(filePath)[i] == '_' then ' ' else Stem(filePath)[i])
  {
    ReplaceChar(Stem(filePath), '_', ' ');
  }

  /** The card with every zero or empty defaulted field filled in;
      `titleCase` is strings.Title. */
  function Defaulted(card: Card, filePath: string, titleCase: string -> string): (c: Card)
    ensures c.title == if card.title == "" then titleCase(TitleSource(filePath)) else card.title
    ensures c.printThis == if card.printThis == 0 then 1 else card.printThis
    ensures c.printTotal == if card.printTotal == 0 then 1 else card.printTotal
    ensures c.rarity == if card.rarity == "" then "common" else card.rarity
    ensures c.cardSet == if card.cardSet == "" then "Unknown" else card.cardSet
    ensures c.artist == if card.artist == "" then "Unknown Artist" else card.artist
    ensures c.bodySize == if card.bodySize == 0 then 12 else card.bodySize
    ensures c == card.(title := c.title, printThis := c.printThis, printTotal := c.printTotal,
                       rarity := c.rarity, cardSet := c.cardSet, artist := c.artist, bodySize := c.bodySize)
  {
    card.(
      title := if card.title == "" then titleCase(TitleSource(filePath)) else card.title,
      printThis := if card.printThis == 0 then 1 else card.printThis,
      printTotal := if card.printTotal == 0 then 1 else card.printTotal,
      rarity := if card.rarity == "" then "common" else card.rarity,
      cardSet := if card.cardSet == "" then "Unknown" else card.cardSet,
      artist := if card.artist == "" then "Unknown Artist" else card.artist,
      bodySize := if card.bodySize == 0 then 12 else card.bodySize)
  }

  /** setDefaults: each defaulted field in turn. */
  method SetDefaults(card: Card, filePath: string, titleCase: string -> string) returns (c: Card)
    ensures c == Defaulted(card, filePath, titleCase)
  {
    c := card;
    if c.title == "" {
      var baseFilename := Base(filePath);
      var nameWithoutExt := baseFilename[..|baseFilename| - |Ext(baseFilename)|];
      c := c.(title := titleCase(ReplaceAll(nameWithoutExt, "_", " ")));
    }
    if c.printThis == 0 {
      c := c.(printThis := 1);
    }
    if c.printTotal == 0 {
      c := c.(printTotal := 1);
    }
    if c.rarity == "" {
      c := c.(rarity := "common");
    }
    if c.cardSet == "" {
      c := c.(cardSet := "Unknown");
    }
    if c.artist == "" {
      c := c.(artist := "Unknown Artist");
    }
    if c.bodySize == 0 {
      c := c.(bodySize := 12);
    }
  }

  /** Defaulting twice is defaulting once. */
  lemma DefaultsIdempotent(card: Card, filePath: string, titleCase: string -> string)
    ensures Defaulted(Defaulted(card, filePath, titleCase), filePath, titleCase) == Defaulted(card, filePath, titleCase)
  {
  }

  /** After defaulting the counts and size are non-zero and the rarity, set
      and artist are non-empty. */
  lemma DefaultsFilled(card: Card, filePath: string, titleCase: string -> string)
    ensures var c := Defaulted(card, filePath, titleCase);
      c.printThis != 0 && c.printTotal != 0 && c.bodySize != 0 &&
      c.rarity != "" && c.cardSet != "" && c.artist != ""
  {
  }

  // ---------------------------------------------------------------------------
  // ParseFile
  // ---------------------------------------------------------------------------

  /** The outcome of parsing a card file whose contents are `file` (or the
      reason it could not be opened). */
  function ParseResult(filePath: string, file: Result<string, string>, yaml: YamlDecoder,
                       titleCase: string -> string): Result<Card, string>
  {
    match file
    case Err(e) => Err("cannot open file: " + e)
    case Ok(data) =>
      match FrontMatterSplit(ScanLines(data))
      case None => Err("missing YAML frontmatter")
      case Some((fm, bodyLines)) =>
        var frontmatter := Join(fm, "\n");
        match yaml.toMap(frontmatter)
        case Err(e) => Err("error parsing YAML frontmatter: " + e)
        case Ok(md) =>
          match yaml.toCard(frontmatter, EmptyCard.(metadata := md, sourceFile := filePath))
          case Err(e) => Err("error parsing YAML into struct: " + e)
          case Ok(card) => Ok(Defaulted(card.(body := BodyText(bodyLines)), filePath, titleCase))
  }

  method ParseFile(filePath: string, file: Result<string, string>, yaml: YamlDecoder,
                   titleCase: string -> string) returns (r: Result<Card, string>)
    ensures r == ParseResult(filePath, file, yaml, titleCase)
  {
    if file.Err? {
      return Err("cannot open file: " + file.error);
    }
    var split := SplitFrontMatter(ScanLines(file.value));
    if split.None? {
      return Err("missing YAML frontmatter");
    }
    var (frontmatterLines, bodyLines) := split.value;
    var frontmatter := Join(frontmatterLines, "\n");
    var card := EmptyCard.(sourceFile := filePath);
    var md := yaml.toMap(frontmatter);
    if md.Err? {
      return Err("error parsing YAML frontmatter: " + md.error);
    }
    card := card.(metadata := md.value);
    var decoded := yaml.toCard(frontmatter, card);
    if decoded.Err? {
      return Err("error parsing YAML into struct: " + decoded.error);
    }
    card := decoded.value;
    var body := ProcessBody(bodyLines);
    card := card.(body := body);
    card := SetDefaults(card, filePath, titleCase);
    r := Ok(card);
  }

  /** A file whose first line is not "---" is rejected before any decoding. */
  lemma ParseNeedsFrontMatter(filePath: string, data: string, yaml: YamlDecoder, titleCase: string -> string)
    requires ScanLines(data) == [] || ScanLines(data)[0] != "---"
    ensures ParseResult(filePath, Ok(data), yaml, titleCase) == Err("missing YAML frontmatter")
  {
  }

  /** A parsed card carries the cleaned body of the lines after the front
      matter and has every default filled in. */
  lemma ParsedCard(filePath: string, data: string, yaml: YamlDecoder, titleCase: string -> string)
    requires ParseResult(filePath, Ok(data), yaml, titleCase).Ok?
    ensures FrontMatterSplit(ScanLines(data)).Some?
    ensures var c := ParseResult(filePath, Ok(data), yaml, titleCase).value;
      && c.body == BodyText(FrontMatterSplit(ScanLines(data)).value.1)
      && c.printThis != 0 && c.printTotal != 0 && c.bodySize != 0
      && c.rarity != "" && c.cardSet != "" && c.artist != ""
  {
  }
}
