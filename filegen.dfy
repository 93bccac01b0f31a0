/** The random files uploaded to storage: the extension and size draws, the
    shapes of the text, CSV, JSON and Markdown contents, and the dispatch on
    the extension. Binary and image contents are represented by their target
    size only. */
module FileGenerator {
  import opened Outcomes
  import opened Text
  import opened Random
  import Config

  // ---------------------------------------------------------------------------
  // Extension and size

  /** `getRandomExtension`: one entry of the configured extensions. */
  function GetRandomExtension(d: Draw): (ext: string)
    ensures ext in Config.FileExtensions
  {
    Config.FileExtensions[Index(d, |Config.FileExtensions|)]
  }

  /** Every configured extension is drawn by some draw. */
  lemma ExtensionsCovered(k: nat)
    requires k < |Config.FileExtensions|
    ensures GetRandomExtension(Fraction(k, |Config.FileExtensions|)) == Config.FileExtensions[k]
  {
    IndexCovers(k, |Config.FileExtensions|);
  }

  /** `Math.floor(d * (maxKB - minKB + 1) + minKB) * 1024`: a whole number of
      kilobytes, between the bounds when they are in order. */
  function GetRandomFileSize(d: Draw, minKB: nat, maxKB: nat): (size: int)
    ensures size % 1024 == 0
    ensures minKB <= maxKB ==> exists k :: minKB <= k <= maxKB && size == k * 1024
  {
    var kb := ((d * (maxKB - minKB + 1) as real) + minKB as real).Floor;
    KilobytesInRange(d, minKB, maxKB);
    kb * 1024
  }

  /** The kilobyte count the draw picks lies between the bounds. */
  lemma KilobytesInRange(d: Draw, minKB: nat, maxKB: nat)
    ensures minKB <= maxKB ==> minKB <= ((d * (maxKB - minKB + 1) as real) + minKB as real).Floor <= maxKB
  {
    if minKB <= maxKB {
      var w := maxKB - minKB + 1;
      var i := Index(d, w);
      var x := d * w as real;
      assert i == x.Floor;
      assert (x + minKB as real).Floor == i + minKB by {
        assert (i + minKB) as real <= x + minKB as real < (i + minKB + 1) as real;
      }
    }
  }

  // ---------------------------------------------------------------------------
  // Text

  /** `n` consecutive characters from `first`. */
  function Run(first: char, n: nat): (s: string)
    requires first as int + n <= 0xD800
    ensures |s| == n
    ensures forall i :: 0 <= i < n ==> s[i] as int == first as int + i
  {
    seq(n, i requires 0 <= i < n => (first as int + i) as char)
  }

  /** The 63 characters random text is drawn from: upper-case letters,
      lower-case letters, digits and the space, in that order. */
  const Alphabet: string := Run('A', 26) + Run('a', 26) + Run('0', 10) + " "

  predicate AlphabetChar(c: char)
  {
    'A' <= c <= 'Z' || 'a' <= c <= 'z' || '0' <= c <= '9' || c == ' '
  }

  /** The alphabet holds exactly the letters, the digits and the space. */
  lemma AlphabetShape()
    ensures |Alphabet| == 63
    ensures forall k :: 0 <= k < |Alphabet| ==> AlphabetChar(Alphabet[k])
    ensures forall c :: AlphabetChar(c) ==> c in Alphabet
  {
    var u, l, d := Run('A', 26), Run('a', 26), Run('0', 10);
    assert Alphabet == u + l + d + " ";
    forall k | 0 <= k < |Alphabet| ensures AlphabetChar(Alphabet[k]) {
      if k < 26 { assert Alphabet[k] == u[k]; }
      else if k < 52 { assert Alphabet[k] == l[k - 26]; }
      else if k < 62 { assert Alphabet[k] == d[k - 52]; }
    }
    forall c | AlphabetChar(c) ensures c in Alphabet {
      if 'A' <= c <= 'Z' {
        var k := c as int - 'A' as int;
        assert Alphabet[k] == u[k] == c;
      } else if 'a' <= c <= 'z' {
        var k := c as int - 'a' as int;
        assert Alphabet[26 + k] == l[k] == c;
      } else if '0' <= c <= '9' {
        var k := c as int - '0' as int;
        assert Alphabet[52 + k] == d[k] == c;
      } else {
        assert Alphabet[62] == c;
      }
    }
  }

  /** The character one draw selects. */
  function RandomChar(d: Draw): (c: char)
    ensures AlphabetChar(c)
  {
    AlphabetShape();
    Alphabet[Index(d, |Alphabet|)]
  }

  /** `generateRandomText(n)`: n characters of the alphabet, the i-th from the
      draw at `pos + i`. */
  function GenerateRandomText(rng: Stream, pos: nat, n: nat): (s: string)
    ensures |s| == n
    ensures forall i :: 0 <= i < n ==> AlphabetChar(s[i])
  {
    var s := seq(n, i requires 0 <= i < n => RandomChar(rng(pos + i)));
    assert forall i :: 0 <= i < n ==> s[i] == RandomChar(rng(pos + i));
    s
  }

  /** Random text never holds a line break. */
  lemma TextOneLine(rng: Stream, pos: nat, n: nat)
    ensures OneLine(GenerateRandomText(rng, pos, n))
  {
    var s := GenerateRandomText(rng, pos, n);
    assert forall i :: 0 <= i < n ==> s[i] != '\n';
  }

  /** Every string over the alphabet is generated by some stream of draws: the
      one whose i-th draw is the i-th character's position over 63. */
  lemma {:induction false} TextCovers(ks: seq<nat>)
    requires forall i :: 0 <= i < |ks| ==> ks[i] < 63
    ensures exists rng: Stream :: GenerateRandomText(rng, 0, |ks|) == seq(|ks|, i requires 0 <= i < |ks| => Alphabet[ks[i]])
  {
    AlphabetShape();
    var t := seq(|ks|, i requires 0 <= i < |ks| => Alphabet[ks[i]]);
    var rng: Stream := (p: nat) => if p < |ks| && ks[p] < 63 then ks[p] as real / 63.0 else 0.0;
    var s := GenerateRandomText(rng, 0, |ks|);
    forall i | 0 <= i < |ks|
      ensures s[i] == t[i]
    {
      IndexCovers(ks[i], 63);
      assert rng(i) == ks[i] as real / 63.0;
      assert s[i] == RandomChar(rng(i)) == Alphabet[ks[i]];
    }
    assert s == t;
  }

  // ---------------------------------------------------------------------------
  // CSV

  const CsvHeader: string := "id,name,score"

  /** Row i of the CSV: its index, its name and a score. */
  function CsvRow(i: nat, score: nat): string
  {
    NatToString(i) + ",Name" + NatToString(i) + "," + NatToString(score)
  }

  /** The rows of `generateRandomCSV`: row i scored by the draw at `pos + i`. */
  function CsvRows(rng: Stream, pos: nat, n: nat): (rows: seq<string>)
    ensures |rows| == n
  {
    seq(n, i requires 0 <= i < n => CsvRow(i, Index(rng(pos + i), 100)))
  }

  /** `generateRandomCSV(length)`: the header line, then ⌊length/20⌋ rows joined
      by line breaks, with no line break after the last. */
  function GenerateRandomCSV(rng: Stream, pos: nat, length: nat): (csv: string)
    ensures SplitLines(csv) == [CsvHeader] + CsvRows(rng, pos, length / 20)
  {
    var rows := CsvRows(rng, pos, length / 20);
    RowsOneLine(rng, pos, length / 20);
    SplitJoinWith(rows);
    assert OneLine(CsvHeader);
    SplitFirstLine(CsvHeader, JoinWith("\n", rows));
    CsvHeader + "\n" + JoinWith("\n", rows)
  }

  lemma RowOneLine(i: nat, score: nat)
    ensures OneLine(CsvRow(i, score)) && CsvRow(i, score) != ""
  {
    DigitsOneLine(NatToString(i));
    DigitsOneLine(NatToString(score));
    assert OneLine(",Name") && OneLine(",");
  }

  /** A text of one-line pieces joined by line breaks splits back into them,
      provided the last piece is not empty. */
  lemma {:induction false} SplitJoinWith(rows: seq<string>)
    requires AllOneLine(rows) && (rows != [] ==> rows[|rows| - 1] != "")
    ensures SplitLines(JoinWith("\n", rows)) == rows
    decreases |rows|
  {
    if |rows| == 1 {
      assert JoinWith("\n", rows) == rows[0];
      SingleLineSplits(rows[0]);
    } else if |rows| > 1 {
      var tail := rows[1..];
      var rest := JoinWith("\n", tail);
      assert JoinWith("\n", rows) == rows[0] + "\n" + rest;
      SplitFirstLine(rows[0], rest);
      OneLineTail(rows);
      assert tail[|tail| - 1] == rows[|rows| - 1];
      SplitJoinWith(tail);
      assert rows == [rows[0]] + tail;
    }
  }

  /** A non-empty line splits into itself. */
  lemma SingleLineSplits(line: string)
    requires OneLine(line) && line != ""
    ensures SplitLines(line) == [line]
  {
    assert IndexOfChar(line, '\n') == |line|;
  }

  lemma OneLineTail(rows: seq<string>)
    requires AllOneLine(rows) && rows != []
    ensures AllOneLine(rows[1..])
  {
    forall k | 0 <= k < |rows[1..]| ensures OneLine(rows[1..][k]) {
      assert rows[1..][k] == rows[k + 1];
    }
  }

  lemma RowsOneLine(rng: Stream, pos: nat, n: nat)
    ensures AllOneLine(CsvRows(rng, pos, n))
    ensures forall k :: 0 <= k < n ==> CsvRows(rng, pos, n)[k] != ""
  {
    var rows := CsvRows(rng, pos, n);
    forall k | 0 <= k < n ensures OneLine(rows[k]) && rows[k] != "" {
      RowOneLine(k, Index(rng(pos + k), 100));
    }
  }

  /** Row i holds i, "Name" followed by i, and a score in [0, 99]. */
  lemma CsvRowScores(rng: Stream, pos: nat, n: nat, i: nat)
    requires i < n
    ensures exists score :: 0 <= score <= 99 && CsvRows(rng, pos, n)[i] == CsvRow(i, score)
  {
    assert CsvRows(rng, pos, n)[i] == CsvRow(i, Index(rng(pos + i), 100));
  }

  // ---------------------------------------------------------------------------
  // JSON

  /** The property name `key<i>`. */
  function Key(i: nat): string
  {
    "key" + NatToString(i)
  }

  lemma KeysDistinct(i: nat, j: nat)
    requires i != j
    ensures Key(i) != Key(j)
  {
    if Key(i) == Key(j) {
      assert NatToString(i) == Key(i)[3..];
      assert NatToString(j) == Key(j)[3..];
      ParseNatToString(i);
      ParseNatToString(j);
    }
  }

  /** The properties `generateRandomJSON` sets, in insertion order: `key<i>`
      with the fragment the draw at `pos + i` gives. */
  function JsonEntries(rng: Stream, pos: nat, fragment: Draw -> string, n: nat): (entries: seq<(string, string)>)
    ensures |entries| == n
  {
    seq(n, i requires 0 <= i < n => (Key(i), fragment(rng(pos + i))))
  }

  function Quote(s: string): string
  {
    "\"" + s + "\""
  }

  function JsonMember(e: (string, string)): string
  {
    "  " + Quote(e.0) + ": " + Quote(e.1)
  }

  /** `JSON.stringify(obj, null, 2)` of an object with string properties that
      need no escaping. */
  function Stringify(entries: seq<(string, string)>): (text: string)
    ensures |text| >= 2 && text[0] == '{' && text[|text| - 1] == '}'
    ensures entries == [] <==> text == "{}"
    ensures entries != [] ==> text[..2] == "{\n" && text[|text| - 2..] == "\n}"
  {
    if entries == [] then "{}"
    else "{\n" + JoinWith(",\n", seq(|entries|, i requires 0 <= i < |entries| => JsonMember(entries[i]))) + "\n}"
  }

  /** The object holds exactly ⌊length/50⌋ properties, key0 to key(⌊length/50⌋-1),
      no two with the same name. */
  lemma JsonKeys(rng: Stream, pos: nat, fragment: Draw -> string, length: nat)
    ensures var entries := JsonEntries(rng, pos, fragment, length / 50);
            && |entries| == length / 50
            && (forall i :: 0 <= i < |entries| ==> entries[i].0 == Key(i))
            && (forall i, j :: 0 <= i < j < |entries| ==> entries[i].0 != entries[j].0)
  {
    var entries := JsonEntries(rng, pos, fragment, length / 50);
    forall i, j | 0 <= i < j < |entries|
      ensures entries[i].0 != entries[j].0
    {
      KeysDistinct(i, j);
    }
  }

  /** `generateRandomJSON(length)`: sets ⌊length/50⌋ fresh properties in a loop,
      each one appended to the object, then stringifies it. */
  method GenerateRandomJSON(rng: Stream, pos: nat, fragment: Draw -> string, length: nat) returns (text: string)
    ensures text == Stringify(JsonEntries(rng, pos, fragment, length / 50))
  {
    var obj: seq<(string, string)> := [];
    var count := length / 50;
    var i := 0;
    while i < count
      invariant 0 <= i <= count
      invariant obj == JsonEntries(rng, pos, fragment, i)
    {
      obj := obj + [(Key(i), fragment(rng(pos + i)))];
      i := i + 1;
    }
    text := Stringify(obj);
  }

  // ---------------------------------------------------------------------------
  // Markdown

  const MarkdownTitle: string := "# Random Markdown"

  /** Item i of the Markdown list, with its ten random characters. */
  function MarkdownItem(rng: Stream, pos: nat, i: nat): string
  {
    "- Item " + NatToString(i) + ": " + GenerateRandomText(rng, pos + 10 * i, 10)
  }

  /** The items of the list: item i takes the ten draws from `pos + 10 i`. */
  function MarkdownItems(rng: Stream, pos: nat, n: nat): (items: seq<string>)
    ensures |items| == n
  {
    seq(n, i requires 0 <= i < n => MarkdownItem(rng, pos, i))
  }

  /** `generateRandomMarkdown(length)`: the title line, then one line per item,
      each ended by a line break; items are appended in a loop. */
  method GenerateRandomMarkdown(rng: Stream, pos: nat, length: nat) returns (content: string)
    ensures content == JoinLines([MarkdownTitle] + MarkdownItems(rng, pos, length / 30))
  {
    content := MarkdownTitle + "\n";
    var lines := length / 30;
    var i := 0;
    while i < lines
      invariant 0 <= i <= lines
      invariant content == JoinLines([MarkdownTitle] + MarkdownItems(rng, pos, i))
    {
      var item := MarkdownItem(rng, pos, i);
      assert MarkdownItems(rng, pos, i + 1) == MarkdownItems(rng, pos, i) + [item];
      JoinLinesAppend([MarkdownTitle] + MarkdownItems(rng, pos, i), [item]);
      assert [MarkdownTitle] + MarkdownItems(rng, pos, i + 1) == ([MarkdownTitle] + MarkdownItems(rng, pos, i)) + [item];
      content := content + (item + "\n");
      i := i + 1;
    }
  }

  function ItemPrefix(i: nat): string
  {
    "- Item " + NatToString(i) + ": "
  }

  /** Item i is "- Item i: " followed by ten characters of the alphabet, on
      one line. */
  lemma ItemShape(rng: Stream, pos: nat, i: nat)
    ensures var item := MarkdownItem(rng, pos, i);
            && |item| == |ItemPrefix(i)| + 10
            && item[..|ItemPrefix(i)|] == ItemPrefix(i)
            && (forall j :: |ItemPrefix(i)| <= j < |item| ==> AlphabetChar(item[j]))
            && OneLine(item)
  {
    var prefix := ItemPrefix(i);
    var t := GenerateRandomText(rng, pos + 10 * i, 10);
    var item := MarkdownItem(rng, pos, i);
    assert item == prefix + t;
    assert forall j :: |prefix| <= j < |item| ==> item[j] == t[j - |prefix|];
    DigitsOneLine(NatToString(i));
    TextOneLine(rng, pos + 10 * i, 10);
    assert OneLine("- Item ") && OneLine(": ");
  }

  /** The Markdown's lines are the title and ⌊length/30⌋ items. */
  lemma MarkdownLines(rng: Stream, pos: nat, length: nat)
    ensures SplitLines(JoinLines([MarkdownTitle] + MarkdownItems(rng, pos, length / 30)))
            == [MarkdownTitle] + MarkdownItems(rng, pos, length / 30)
  {
    var lines := [MarkdownTitle] + MarkdownItems(rng, pos, length / 30);
    forall k | 0 <= k < |lines| ensures OneLine(lines[k]) {
      if k > 0 {
        ItemShape(rng, pos, k - 1);
      } else {
        assert OneLine(MarkdownTitle);
      }
    }
    SplitJoinLines(lines);
  }

  // ---------------------------------------------------------------------------
  // The generated file

  /** What `generateRandomFile` writes: a text, or the target size of random
      bytes or of an image. */
  datatype Content = TextContent(text: string) | RandomBytes(size: int) | ImageBuffer(targetSize: int)

  datatype Shape = PlainText | Csv | Json | Markdown | Binary | Png

  /** The `switch` on the extension; an extension it does not list gets text. */
  function ShapeOf(ext: string): (s: Shape)
    ensures ext !in [".txt", ".csv", ".json", ".md", ".bin", ".png"] ==> s == PlainText
  {
    if ext == ".txt" then PlainText
    else if ext == ".csv" then Csv
    else if ext == ".json" then Json
    else if ext == ".md" then Markdown
    else if ext == ".bin" then Binary
    else if ext == ".png" then Png
    else PlainText
  }

  /** Every configured extension selects its own shape. */
  lemma ConfiguredShapes()
    ensures ShapeOf(".txt") == PlainText && ShapeOf(".json") == Json && ShapeOf(".csv") == Csv
    ensures ShapeOf(".bin") == Binary && ShapeOf(".md") == Markdown && ShapeOf(".png") == Png
  {
  }

  const GeneratedMinKB: nat := 10
  const GeneratedMaxKB: nat := 1024

  /** The name of a file generated at a time: `data_<timestamp><ext>`. */
  function FileName(nowMs: nat, ext: string): string
  {
    "data_" + NatToString(nowMs) + ext
  }

  /** `generateRandomFile`: an extension from the draw at `pos`, a size of
      10 to 1024 KB from the next, the content from the draws after those; the
      file is written under `baseDir` and its path returned. A failed write
      propagates. */
  method GenerateRandomFile(rng: Stream, pos: nat, fragment: Draw -> string, baseDir: string, nowMs: nat,
                            write: Outcome<()>)
    returns (path: Outcome<string>, content: Content)
    ensures var ext := GetRandomExtension(rng(pos));
            var size := GetRandomFileSize(rng(pos + 1), GeneratedMinKB, GeneratedMaxKB);
            && ext in Config.FileExtensions
            && size % 1024 == 0 && 10 * 1024 <= size <= 1024 * 1024
            && (path.Ok? <==> write.Ok?)
            && (path.Ok? ==> path.value == baseDir + "/" + FileName(nowMs, ext))
            && (path.Err? ==> path.error == write.error)
            && match ShapeOf(ext)
               case PlainText => content == TextContent(GenerateRandomText(rng, pos + 2, size))
               case Csv => content == TextContent(GenerateRandomCSV(rng, pos + 2, size))
               case Json => content == TextContent(Stringify(JsonEntries(rng, pos + 2, fragment, size / 50)))
               case Markdown => content == TextContent(JoinLines([MarkdownTitle] + MarkdownItems(rng, pos + 2, size / 30)))
               case Binary => content == RandomBytes(size)
               case Png => content == ImageBuffer(size)
  {
    var ext := GetRandomExtension(rng(pos));
    var size := GetRandomFileSize(rng(pos + 1), GeneratedMinKB, GeneratedMaxKB);
    var fileName := FileName(nowMs, ext);
    var filePath := baseDir + "/" + fileName;
    var n: nat := size;
    match ShapeOf(ext) {
      case PlainText =>
        content := TextContent(GenerateRandomText(rng, pos + 2, n));
      case Csv =>
        content := TextContent(GenerateRandomCSV(rng, pos + 2, n));
      case Json =>
        var text := GenerateRandomJSON(rng, pos + 2, fragment, n);
        content := TextContent(text);
      case Markdown =>
        var text := GenerateRandomMarkdown(rng, pos + 2, n);
        content := TextContent(text);
      case Binary =>
        content := RandomBytes(size);
      case Png =>
        content := ImageBuffer(size);
    }
    if write.Err? {
      path := Err(write.error);
    } else {
      path := Ok(filePath);
    }
  }
}
