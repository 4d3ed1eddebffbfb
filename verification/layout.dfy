/** The exact text the aggregator produces (extension.js:139-143 and
    157-162): one block per included file and a summary header in front,
    each with a reader that recovers what was written. */
module Layout {
  import opened Wrappers
  import opened Text

  /** The separator line around each file name: 40 equals signs. */
  const Rule: string := "========================================"

  /** The blank line and rule that open a block. */
  const Opening: string := "\n\n" + Rule + "\n"

  /** The label in front of a file's relative path. */
  const FileLabel: string := "File: "

  /** The rule and blank line between the `File:` line and the content. */
  const Closing: string := Rule + "\n\n"

  /** What precedes a file's relative path in its block. */
  const BlockHead: string := Opening + FileLabel

  /** What lies between a file's relative path and its content. */
  const BlockMid: string := "\n" + Closing

  /** The text appended for one included file: a blank line, the rule, the
      `File:` line, the rule, a blank line, the content, two line feeds. */
  function Block(path: string, content: string): string
  {
    BlockHead + (path + (BlockMid + (content + "\n\n")))
  }

  /** Appending the pieces of a block one after another appends the block. */
  lemma BlockPieces(text: string, path: string, content: string)
    ensures text + Opening + FileLabel + path + "\n" + Closing + content + "\n\n" == text + Block(path, content)
  {
    Regroup(text, Opening, FileLabel, path, "\n", Closing, content, "\n\n");
  }

  lemma Regroup<T>(x: seq<T>, a: seq<T>, b: seq<T>, p: seq<T>, n: seq<T>, c: seq<T>, k: seq<T>, e: seq<T>)
    ensures x + a + b + p + n + c + k + e == x + ((a + b) + (p + ((n + c) + (k + e))))
  {
  }

  /** Reads one block back: the file's relative path and its content. */
  function ParseBlock(s: string): (r: Option<(string, string)>)
    ensures r.Some? ==> NoNewline(r.value.0)
  {
    if !(BlockHead <= s) then None
    else
      var rest := s[|BlockHead|..];
      match FirstNewline(rest)
      case None => None
      case Some(k) =>
        var after := rest[k..];
        if !(BlockMid <= after) then None
        else
          var tail := after[|BlockMid|..];
          if |tail| < 2 || tail[|tail| - 2..] != "\n\n" then None
          else Some((rest[..k], tail[..|tail| - 2]))
  }

  /** The separator lines are runs of equals signs of the widths the source
      writes: 40 around each file name, 19 under the title. */
  lemma RuleWidths()
    ensures Rule == Repeat('=', 40)
    ensures Underline == Repeat('=', 19)
  {
  }

  /** A block names its file and carries its content unchanged: reading it
      back recovers both, whatever the content holds, as long as the path
      has no line feed. */
  lemma BlockRoundTrip(path: string, content: string)
    requires NoNewline(path)
    ensures ParseBlock(Block(path, content)) == Some((path, content))
  {
    var s := Block(path, content);
    var tail := content + "\n\n";
    var after := BlockMid + tail;
    var rest := path + after;
    SplitAt(BlockHead, rest);
    FirstNewlineAfterLine(path, after);
    SplitAt(path, after);
    SplitAt(BlockMid, tail);
    SplitAt(content, "\n\n");
  }

  /** The fields of the summary header. The lists appear as the text they
      were joined into. */
  datatype SummaryFields = SummaryFields(
    timestamp: string,
    processed: nat,
    folders: string,
    patterns: string)

  const Title: string := "Project Files Summary"
  const TimeLabel: string := "Generated on: "
  const CountLabel: string := "Files processed: "
  const FoldersLabel: string := "Excluded folders: "
  const PatternsLabel: string := "Excluded patterns: "

  /** The underline below the title: 19 equals signs. */
  const Underline: string := "==================="

  /** The header put in front of the blocks: title, underline, timestamp,
      number of processed files, and both exclusion lists joined with
      ", ", then a blank line. */
  function Summary(timestamp: string, processed: nat, folders: seq<string>, patterns: seq<string>): string
  {
    Lines([
      Title,
      Underline,
      TimeLabel + timestamp,
      CountLabel + Decimal(processed),
      FoldersLabel + Join(folders, ", "),
      PatternsLabel + Join(patterns, ", "),
      ""])
  }

  /** Reads a line that starts with `tag`: the rest of the line and
      whatever follows it. */
  function Field(s: string, tag: string): (r: Option<(string, string)>)
    ensures r.Some? ==> |r.value.1| < |s|
  {
    match FirstLine(s)
    case None => None
    case Some(line) =>
      if tag <= line then
        match AfterFirstLine(s)
        case None => None
        case Some(after) => Some((line[|tag|..], after))
      else None
  }

  lemma FieldRoundTrip(tag: string, value: string, rest: string)
    requires NoNewline(tag + value)
    ensures Field(tag + value + "\n" + rest, tag) == Some((value, rest))
  {
    LineRoundTrip(tag + value, rest);
    assert (tag + value)[|tag|..] == value;
  }

  /** Reads a summary header back, returning its fields and the text after
      its closing blank line. */
  function ParseSummary(s: string): (r: Option<(SummaryFields, string)>)
    ensures r.Some? ==> |r.value.1| < |s|
  {
    match Field(s, Title)
    case None => None
    case Some((t, s1)) =>
      if t != "" then None
      else match Field(s1, Underline)
      case None => None
      case Some((u, s2)) =>
        if u != "" then None
        else match Field(s2, TimeLabel)
        case None => None
        case Some((ts, s3)) =>
          match Field(s3, CountLabel)
          case None => None
          case Some((digits, s4)) =>
            match ParseDecimal(digits)
            case None => None
            case Some(n) =>
              match Field(s4, FoldersLabel)
              case None => None
              case Some((fs, s5)) =>
                match Field(s5, PatternsLabel)
                case None => None
                case Some((ps, s6)) =>
                  match Field(s6, "")
                  case None => None
                  case Some((blank, body)) =>
                    if blank != "" then None
                    else Some((SummaryFields(ts, n, fs, ps), body))
  }

  /** The number the header reports as "Files processed". Reading stops at
      the end of that line, so it does not depend on the list lines after it. */
  function ReadCount(s: string): Option<nat>
  {
    match Field(s, Title)
    case None => None
    case Some((t, s1)) =>
      if t != "" then None
      else match Field(s1, Underline)
      case None => None
      case Some((u, s2)) =>
        if u != "" then None
        else match Field(s2, TimeLabel)
        case None => None
        case Some((_, s3)) =>
          match Field(s3, CountLabel)
          case None => None
          case Some((digits, _)) => ParseDecimal(digits)
  }

  lemma NoNewlineConcat(a: string, b: string)
    requires NoNewline(a) && NoNewline(b)
    ensures NoNewline(a + b)
  {
    assert forall i :: 0 <= i < |a| ==> (a + b)[i] == a[i];
    assert forall i :: |a| <= i < |a + b| ==> (a + b)[i] == b[i - |a|];
  }

  lemma LabelsHaveNoNewline()
    ensures NoNewline(Title) && NoNewline(Underline) && NoNewline(TimeLabel)
    ensures NoNewline(CountLabel) && NoNewline(FoldersLabel) && NoNewline(PatternsLabel)
  {
  }

  lemma BlankLine(rest: string)
    ensures Field(Lines([""]) + rest, "") == Some(("", rest))
  {
    assert Lines([""]) == "\n" by {
      assert [""][1..] == [];
    }
    FirstNewlineAfterLine("", "\n" + rest);
    assert "" + ("\n" + rest) == "\n" + rest;
    assert ("\n" + rest)[1..] == rest;
  }

  /** Reading a header line by line. */
  lemma ParseSummaryByLines(s0: string, s1: string, s2: string, s3: string, s4: string, s5: string, s6: string,
                            body: string, timestamp: string, digits: string, n: nat, fs: string, ps: string)
    requires Field(s0, Title) == Some(("", s1))
    requires Field(s1, Underline) == Some(("", s2))
    requires Field(s2, TimeLabel) == Some((timestamp, s3))
    requires Field(s3, CountLabel) == Some((digits, s4))
    requires ParseDecimal(digits) == Some(n)
    requires Field(s4, FoldersLabel) == Some((fs, s5))
    requires Field(s5, PatternsLabel) == Some((ps, s6))
    requires Field(s6, "") == Some(("", body))
    ensures ParseSummary(s0) == Some((SummaryFields(timestamp, n, fs, ps), body))
  {
  }

  /** Everything written into the header reads back from the header of a
      complete output, and the rest is exactly the body that followed,
      provided the timestamp and the joined lists are single lines. */
  lemma SummaryRoundTrip(timestamp: string, processed: nat, folders: seq<string>, patterns: seq<string>, body: string)
    requires NoNewline(timestamp)
    requires NoNewline(Join(folders, ", "))
    requires NoNewline(Join(patterns, ", "))
    ensures ParseSummary(Summary(timestamp, processed, folders, patterns) + body)
      == Some((SummaryFields(timestamp, processed, Join(folders, ", "), Join(patterns, ", ")), body))
  {
    var fs := Join(folders, ", ");
    var ps := Join(patterns, ", ");
    var digits := Decimal(processed);
    var ls := [Title, Underline, TimeLabel + timestamp, CountLabel + digits, FoldersLabel + fs, PatternsLabel + ps, ""];
    assert Summary(timestamp, processed, folders, patterns) == Lines(ls);
    var s0 := Lines(ls) + body;
    var s1 := Lines(ls[1..]) + body;
    var s2 := Lines(ls[2..]) + body;
    var s3 := Lines(ls[3..]) + body;
    var s4 := Lines(ls[4..]) + body;
    var s5 := Lines(ls[5..]) + body;
    var s6 := Lines(ls[6..]) + body;
    assert Field(s0, Title) == Some(("", s1)) by {
      LinesThen(ls, body);
      LabelsHaveNoNewline();
      assert Title + "" == Title;
      FieldRoundTrip(Title, "", s1);
    }
    assert Field(s1, Underline) == Some(("", s2)) by {
      LinesThen(ls[1..], body);
      LabelsHaveNoNewline();
      assert ls[1..][1..] == ls[2..];
      assert Underline + "" == Underline;
      FieldRoundTrip(Underline, "", s2);
    }
    assert Field(s2, TimeLabel) == Some((timestamp, s3)) by {
      LinesThen(ls[2..], body);
      LabelsHaveNoNewline();
      assert ls[2..][1..] == ls[3..];
      NoNewlineConcat(TimeLabel, timestamp);
      FieldRoundTrip(TimeLabel, timestamp, s3);
    }
    assert Field(s3, CountLabel) == Some((digits, s4)) by {
      LinesThen(ls[3..], body);
      LabelsHaveNoNewline();
      assert ls[3..][1..] == ls[4..];
      NoNewlineConcat(CountLabel, digits);
      FieldRoundTrip(CountLabel, digits, s4);
    }
    DecimalRoundTrip(processed);
    assert Field(s4, FoldersLabel) == Some((fs, s5)) by {
      LinesThen(ls[4..], body);
      LabelsHaveNoNewline();
      assert ls[4..][1..] == ls[5..];
      NoNewlineConcat(FoldersLabel, fs);
      FieldRoundTrip(FoldersLabel, fs, s5);
    }
    assert Field(s5, PatternsLabel) == Some((ps, s6)) by {
      LinesThen(ls[5..], body);
      LabelsHaveNoNewline();
      assert ls[5..][1..] == ls[6..];
      NoNewlineConcat(PatternsLabel, ps);
      FieldRoundTrip(PatternsLabel, ps, s6);
    }
    assert Field(s6, "") == Some(("", body)) by {
      assert ls[6..] == [""];
      BlankLine(body);
    }
    ParseSummaryByLines(s0, s1, s2, s3, s4, s5, s6, body, timestamp, digits, processed, fs, ps);
  }

  /** The count written into the header reads back from any output that
      starts with it, whatever the list lines after it hold, provided the
      timestamp is a single line. */
  lemma CountRoundTrip(timestamp: string, processed: nat, folders: seq<string>, patterns: seq<string>, body: string)
    requires NoNewline(timestamp)
    ensures ReadCount(Summary(timestamp, processed, folders, patterns) + body) == Some(processed)
  {
    var digits := Decimal(processed);
    var ls := [Title, Underline, TimeLabel + timestamp, CountLabel + digits,
               FoldersLabel + Join(folders, ", "), PatternsLabel + Join(patterns, ", "), ""];
    assert Summary(timestamp, processed, folders, patterns) == Lines(ls);
    var s1 := Lines(ls[1..]) + body;
    var s2 := Lines(ls[2..]) + body;
    var s3 := Lines(ls[3..]) + body;
    var s4 := Lines(ls[4..]) + body;
    assert Field(Lines(ls) + body, Title) == Some(("", s1)) by {
      LinesThen(ls, body);
      LabelsHaveNoNewline();
      assert Title + "" == Title;
      FieldRoundTrip(Title, "", s1);
    }
    assert Field(s1, Underline) == Some(("", s2)) by {
      LinesThen(ls[1..], body);
      LabelsHaveNoNewline();
      assert ls[1..][1..] == ls[2..];
      assert Underline + "" == Underline;
      FieldRoundTrip(Underline, "", s2);
    }
    assert Field(s2, TimeLabel) == Some((timestamp, s3)) by {
      LinesThen(ls[2..], body);
      LabelsHaveNoNewline();
      assert ls[2..][1..] == ls[3..];
      NoNewlineConcat(TimeLabel, timestamp);
      FieldRoundTrip(TimeLabel, timestamp, s3);
    }
    assert Field(s3, CountLabel) == Some((digits, s4)) by {
      LinesThen(ls[3..], body);
      LabelsHaveNoNewline();
      assert ls[3..][1..] == ls[4..];
      NoNewlineConcat(CountLabel, digits);
      FieldRoundTrip(CountLabel, digits, s4);
    }
    DecimalRoundTrip(processed);
    ReadCountByLines(Lines(ls) + body, s1, s2, s3, s4, timestamp, digits);
  }

  /** Reading the count line by line. */
  lemma ReadCountByLines(s0: string, s1: string, s2: string, s3: string, s4: string, timestamp: string, digits: string)
    requires Field(s0, Title) == Some(("", s1))
    requires Field(s1, Underline) == Some(("", s2))
    requires Field(s2, TimeLabel) == Some((timestamp, s3))
    requires Field(s3, CountLabel) == Some((digits, s4))
    ensures ReadCount(s0) == ParseDecimal(digits)
  {
  }
}
