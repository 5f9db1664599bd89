/** The first, single-file viewer: `ParseLine`, which recognises only the
    full Chrome pattern and the gtest banner; the component that shows one
    checkbox per log level and a table of the lines whose level is checked;
    and the step of `main` that keeps the lines that parsed. */
module LegacyViewer {
  import opened Text
  import opened Wrappers
  import opened LogPatterns
  import opened ParsedLines
  import opened Rows

  /** The record of the first viewer: like ParsedLine without a translated
      thread id, with the type as a number (1 for a log line, 2 for a
      gtest banner). */
  datatype LegacyLine = LegacyLine(
    processId: int, threadId: int,
    month: int, day: int,
    hour: int, minute: int, seconds: int, milliseconds: int,
    unknown: string, level: string,
    file: string, line: string, log: string,
    lineType: int)

  /** The precondition of ParseLine: the numeric groups of a full Chrome
      match fit in an int. */
  predicate ParseLineFits(line: string) {
    match MatchChrome(line, true)
    case Some(f) => FitsInt(f)
    case None => true
  }

  function ParseLine(line: string): (r: Option<LegacyLine>)
    requires ParseLineFits(line)
    ensures r.Some? <==> MatchChrome(line, true).Some? || MatchGtest(line).Some?
    ensures r.Some? ==> r.value.lineType == 1 || r.value.lineType == 2
  {
    match MatchChrome(line, true)
    case Some(f) =>
      Some(LegacyLine(DecimalValue(f.pid), DecimalValue(f.tid),
                      DecimalValue(f.month), DecimalValue(f.day),
                      DecimalValue(f.hour), DecimalValue(f.minute), DecimalValue(f.seconds),
                      DecimalValue(f.millis),
                      f.unknown, f.level, f.file, "(" + f.lineNo + ")", f.log, 1))
    case None =>
      match MatchGtest(line)
      case Some(g) => Some(LegacyLine(0, 0, 0, 0, 0, 0, 0, 0, "", "GTEST", "", "", "[" + g.0 + "]", 2))
      case None => None
  }

  /** The record of the first viewer that corresponds to a ParsedLine. */
  function Downgrade(p: ParsedLine): LegacyLine {
    LegacyLine(p.processId, p.threadId, p.month, p.day, p.hour, p.minute, p.seconds,
               p.milliseconds, p.unknown, p.level, p.file, p.line, p.log,
               if p.lineType == LOG then 1 else if p.lineType == GTEST then 2 else 0)
  }

  /** ParseLine accepts exactly the lines Parse reads with the full pattern
      or as a gtest banner, and then builds the same record; a line only the
      short pattern matches, or no pattern, is rejected. */
  lemma ParseLineAgreesWithParse(line: string)
    requires ParseLineFits(line) && ParseFits(line)
    ensures ParseLine(line).Some? <==>
              Parse(line).lineType == GTEST || (Parse(line).lineType == LOG && Parse(line).unknown != "")
    ensures ParseLine(line).Some? ==> ParseLine(line).value == Downgrade(Parse(line))
  {
    if MatchGtest(line).Some? {
      GtestExcludesChrome(line, true);
      GtestExcludesChrome(line, false);
    }
    if MatchChrome(line, true).None? && MatchChrome(line, false).Some? {
      assert Parse(line).unknown == "";
    }
  }

  /** A line in the shape of the full pattern yields type 1 with the members
      converted from the groups in order; file, line and log come from the
      pattern's own (greedy) match, which has the given leading fields. */
  lemma ParseLineLog(line: string, f: ChromeFields)
    requires WellFormedChrome(f, true) && ChromeLayout(f, true) == line
    requires FitsInt(f)
    ensures ParseLineFits(line)
    ensures ParseLine(line).Some? && ParseLine(line).value.lineType == 1
    ensures ParseLine(line).value.processId == DecimalValue(f.pid)
    ensures ParseLine(line).value.threadId == DecimalValue(f.tid)
    ensures ParseLine(line).value.month == DecimalValue(f.month)
    ensures ParseLine(line).value.day == DecimalValue(f.day)
    ensures ParseLine(line).value.hour == DecimalValue(f.hour)
    ensures ParseLine(line).value.minute == DecimalValue(f.minute)
    ensures ParseLine(line).value.seconds == DecimalValue(f.seconds)
    ensures ParseLine(line).value.milliseconds == DecimalValue(f.millis)
    ensures ParseLine(line).value.unknown == f.unknown && ParseLine(line).value.level == f.level
    ensures |f.file| <= |ParseLine(line).value.file|
    ensures MatchChrome(line, true).Some? && SamePrefix(f, MatchChrome(line, true).value)
    ensures var g := MatchChrome(line, true).value;
              && ParseLine(line).value.file == g.file
              && ParseLine(line).value.line == "(" + g.lineNo + ")"
              && ParseLine(line).value.log == g.log
  {
    ChromeComplete(f, true);
  }

  /** A gtest banner yields type 2, level "GTEST" and the log `[` + the ten
      characters + `]`. */
  lemma ParseLineGtest(banner: string, rest: string)
    requires WellFormedGtest(banner, rest)
    ensures ParseLineFits(GtestLayout(banner, rest))
    ensures ParseLine(GtestLayout(banner, rest))
              == Some(LegacyLine(0, 0, 0, 0, 0, 0, 0, 0, "", "GTEST", "", "", "[" + banner + "]", 2))
  {
    GtestComplete(banner, rest);
    GtestExcludesChrome(GtestLayout(banner, rest), true);
  }

  // ---------------------------------------------------------------------
  // main: keep the lines that parsed.
  // ---------------------------------------------------------------------

  /** ParseLine applied to each line. */
  function ParseAll(texts: seq<string>): (r: seq<Option<LegacyLine>>)
    requires forall i :: 0 <= i < |texts| ==> ParseLineFits(texts[i])
    ensures |r| == |texts| && forall i :: 0 <= i < |texts| ==> r[i] == ParseLine(texts[i])
  {
    seq(|texts|, i requires 0 <= i < |texts| => ParseLine(texts[i]))
  }

  /** The records of the lines of `texts` that ParseLine accepts, in order. */
  function Accepted(texts: seq<string>): seq<LegacyLine>
    requires forall i :: 0 <= i < |texts| ==> ParseLineFits(texts[i])
  {
    Somes(ParseAll(texts))
  }

  /** A record is kept exactly when some line parses to it. */
  lemma AcceptedMembers(texts: seq<string>, x: LegacyLine)
    requires forall i :: 0 <= i < |texts| ==> ParseLineFits(texts[i])
    ensures x in Accepted(texts) <==> exists i :: 0 <= i < |texts| && ParseLine(texts[i]) == Some(x)
  {
    SomesMembers(ParseAll(texts), x);
  }

  /** Keeping distributes over concatenation, so the kept records are in
      the order of their lines. */
  lemma AcceptedConcat(a: seq<string>, b: seq<string>)
    requires forall i :: 0 <= i < |a| ==> ParseLineFits(a[i])
    requires forall i :: 0 <= i < |b| ==> ParseLineFits(b[i])
    ensures forall i :: 0 <= i < |a + b| ==> ParseLineFits((a + b)[i])
    ensures Accepted(a + b) == Accepted(a) + Accepted(b)
  {
    assert ParseAll(a + b) == ParseAll(a) + ParseAll(b);
    SomesConcat(ParseAll(a), ParseAll(b));
  }

  /** The loop of `main` that keeps the records of the lines that parsed. */
  method KeepParsed(texts: seq<string>) returns (parsed: seq<LegacyLine>)
    requires forall i :: 0 <= i < |texts| ==> ParseLineFits(texts[i])
    ensures parsed == Accepted(texts)
  {
    parsed := [];
    var i := 0;
    while i < |texts|
      invariant 0 <= i <= |texts|
      invariant parsed == Somes(ParseAll(texts)[..i])
    {
      PrefixSnoc(ParseAll(texts), i);
      SomesConcat(ParseAll(texts)[..i], [ParseAll(texts)[i]]);
      var r := ParseLine(texts[i]);
      if r.Some? {
        parsed := parsed + [r.value];
      }
      i := i + 1;
    }
    assert ParseAll(texts)[..i] == ParseAll(texts);
  }

  // ---------------------------------------------------------------------
  // The component.
  // ---------------------------------------------------------------------

  datatype Checkbox = Checkbox(title: string, state: bool)

  function Levels(lines: seq<LegacyLine>): set<string> {
    set i | 0 <= i < |lines| :: lines[i].level
  }

  function LevelLengths(lines: seq<LegacyLine>): seq<int> {
    seq(|lines|, i requires 0 <= i < |lines| => |lines[i].level|)
  }

  function FileLengths(lines: seq<LegacyLine>): seq<int> {
    seq(|lines|, i requires 0 <= i < |lines| => |lines[i].file|)
  }

  function Types(lines: seq<LegacyLine>): seq<int> {
    seq(|lines|, i requires 0 <= i < |lines| => lines[i].lineType)
  }

  /** The labels of the checked boxes. */
  function CheckedLabels(boxes: seq<Checkbox>): set<string> {
    set i | 0 <= i < |boxes| && boxes[i].state :: boxes[i].title
  }

  /** The filter of Render: the line's level is in `allowed`. */
  function LevelIn(allowed: set<string>): LegacyLine -> bool {
    (l: LegacyLine) => l.level in allowed
  }

  class MyComponent {
    var lines: seq<LegacyLine>
    var checkboxes: seq<Checkbox>

    /** One checkbox per distinct level, in the order of std::set (sorted,
        no duplicates), each initially checked. */
    constructor(lines0: seq<LegacyLine>)
      ensures lines == lines0
      ensures forall i :: 0 <= i < |checkboxes| ==> checkboxes[i].state
      ensures forall i, j :: 0 <= i < j < |checkboxes| ==> StrLess(checkboxes[i].title, checkboxes[j].title)
      ensures (set i | 0 <= i < |checkboxes| :: checkboxes[i].title) == Levels(lines0)
    {
      lines := lines0;
      var levels: seq<string> := [];
      var i := 0;
      while i < |lines0|
        invariant 0 <= i <= |lines0|
        invariant StrictlySorted(levels)
        invariant forall y :: y in levels <==> y in Levels(lines0[..i])
      {
        InsertSortedKeepsSorted(levels, lines0[i].level);
        levels := InsertSorted(levels, lines0[i].level);
        assert forall y :: y in Levels(lines0[..i + 1]) <==> y in Levels(lines0[..i]) || y == lines0[i].level by {
          forall y ensures y in Levels(lines0[..i + 1]) <==> y in Levels(lines0[..i]) || y == lines0[i].level {
            if y in Levels(lines0[..i + 1]) {
              var k :| 0 <= k < i + 1 && lines0[..i + 1][k].level == y;
              if k < i {
                assert lines0[..i][k] == lines0[k];
              }
            }
            if y in Levels(lines0[..i]) {
              var k :| 0 <= k < i && lines0[..i][k].level == y;
              assert lines0[..i + 1][k] == lines0[k];
            }
            if y == lines0[i].level {
              assert lines0[..i + 1][i] == lines0[i];
            }
          }
        }
        i := i + 1;
      }
      assert lines0[..i] == lines0;
      var boxes: seq<Checkbox> := [];
      var j := 0;
      while j < |levels|
        invariant 0 <= j <= |levels|
        invariant |boxes| == j
        invariant forall k :: 0 <= k < j ==> boxes[k] == Checkbox(levels[k], true)
      {
        boxes := boxes + [Checkbox(levels[j], true)];
        j := j + 1;
      }
      checkboxes := boxes;
      assert forall y :: y in levels <==> y in (set k | 0 <= k < |boxes| :: boxes[k].title) by {
        forall y ensures y in levels <==> y in (set k | 0 <= k < |boxes| :: boxes[k].title) {
          if y in levels {
            var k :| 0 <= k < |levels| && levels[k] == y;
            assert boxes[k].title == y;
          }
        }
      }
    }

    /** The table: a header row, then the lines whose level is checked, in
        their order, each preceded by a separator when its type differs
        from the previous line's (the first line is compared with -1, so it
        always gets one); and the widths of the level and file columns,
        the longest level and file among the shown lines, 0 when none is
        shown. Item rows index `shown`. */
    method Render() returns (rows: seq<Row>, shown: seq<LegacyLine>, sizeLevel: int, sizeFile: int)
      ensures shown == Filter(lines, LevelIn(CheckedLabels(checkboxes)))
      ensures rows == [Header] + SeparatedRows(Types(shown), -1)
      ensures sizeLevel >= 0 && forall l :: l in shown ==> |l.level| <= sizeLevel
      ensures sizeLevel == 0 || exists l :: l in shown && |l.level| == sizeLevel
      ensures sizeFile >= 0 && forall l :: l in shown ==> |l.file| <= sizeFile
      ensures sizeFile == 0 || exists l :: l in shown && |l.file| == sizeFile
    {
      var allowed := CollectChecked(checkboxes);
      shown := KeepLevels(lines, allowed);
      sizeLevel, sizeFile := ColumnWidths(shown);
      rows := TypeRows(shown);
    }
  }

  /** The set of the labels of the checked boxes. */
  method CollectChecked(boxes: seq<Checkbox>) returns (allowed: set<string>)
    ensures allowed == CheckedLabels(boxes)
  {
    allowed := {};
    var i := 0;
    while i < |boxes|
      invariant 0 <= i <= |boxes|
      invariant allowed == CheckedLabels(boxes[..i])
    {
      assert CheckedLabels(boxes[..i + 1]) == CheckedLabels(boxes[..i])
        + (if boxes[i].state then {boxes[i].title} else {}) by {
        forall y | y in CheckedLabels(boxes[..i + 1])
          ensures y in CheckedLabels(boxes[..i]) || (boxes[i].state && y == boxes[i].title)
        {
          var k :| 0 <= k < i + 1 && boxes[..i + 1][k].state && boxes[..i + 1][k].title == y;
          if k < i {
            assert boxes[..i][k] == boxes[k];
          }
        }
        forall y | y in CheckedLabels(boxes[..i]) ensures y in CheckedLabels(boxes[..i + 1]) {
          var k :| 0 <= k < i && boxes[..i][k].state && boxes[..i][k].title == y;
          assert boxes[..i + 1][k] == boxes[k];
        }
        if boxes[i].state {
          assert boxes[..i + 1][i] == boxes[i];
        }
      }
      if boxes[i].state {
        allowed := allowed + {boxes[i].title};
      }
      i := i + 1;
    }
    assert boxes[..i] == boxes;
  }

  /** The lines whose level is in `allowed`, in their order. */
  method KeepLevels(lines: seq<LegacyLine>, allowed: set<string>) returns (shown: seq<LegacyLine>)
    ensures shown == Filter(lines, LevelIn(allowed))
  {
    shown := [];
    var i := 0;
    while i < |lines|
      invariant 0 <= i <= |lines|
      invariant shown == Filter(lines[..i], LevelIn(allowed))
    {
      assert lines[..i + 1][..i] == lines[..i];
      if lines[i].level in allowed {
        shown := shown + [lines[i]];
      }
      i := i + 1;
    }
    assert lines[..i] == lines;
  }

  /** The running maximum of the level lengths bounds every level and is
      0 or the length of one. */
  lemma WidestLevel(shown: seq<LegacyLine>)
    ensures forall l :: l in shown ==> |l.level| <= MaxFrom(0, LevelLengths(shown))
    ensures MaxFrom(0, LevelLengths(shown)) == 0 ||
              exists l :: l in shown && |l.level| == MaxFrom(0, LevelLengths(shown))
  {
    var m := MaxFrom(0, LevelLengths(shown));
    forall l | l in shown ensures |l.level| <= m {
      var k :| 0 <= k < |shown| && shown[k] == l;
      assert LevelLengths(shown)[k] == |l.level|;
    }
    if m != 0 {
      var k :| 0 <= k < |shown| && LevelLengths(shown)[k] == m;
      assert shown[k] in shown;
    }
  }

  /** The same for the file lengths. */
  lemma WidestFile(shown: seq<LegacyLine>)
    ensures forall l :: l in shown ==> |l.file| <= MaxFrom(0, FileLengths(shown))
    ensures MaxFrom(0, FileLengths(shown)) == 0 ||
              exists l :: l in shown && |l.file| == MaxFrom(0, FileLengths(shown))
  {
    var m := MaxFrom(0, FileLengths(shown));
    forall l | l in shown ensures |l.file| <= m {
      var k :| 0 <= k < |shown| && shown[k] == l;
      assert FileLengths(shown)[k] == |l.file|;
    }
    if m != 0 {
      var k :| 0 <= k < |shown| && FileLengths(shown)[k] == m;
      assert shown[k] in shown;
    }
  }

  /** The running maxima of the level and file lengths, from 0. */
  method ColumnWidths(shown: seq<LegacyLine>) returns (sizeLevel: int, sizeFile: int)
    ensures sizeLevel >= 0 && forall l :: l in shown ==> |l.level| <= sizeLevel
    ensures sizeLevel == 0 || exists l :: l in shown && |l.level| == sizeLevel
    ensures sizeFile >= 0 && forall l :: l in shown ==> |l.file| <= sizeFile
    ensures sizeFile == 0 || exists l :: l in shown && |l.file| == sizeFile
  {
    sizeLevel := 0;
    sizeFile := 0;
    var i := 0;
    while i < |shown|
      invariant 0 <= i <= |shown|
      invariant sizeLevel == MaxFrom(0, LevelLengths(shown)[..i])
      invariant sizeFile == MaxFrom(0, FileLengths(shown)[..i])
    {
      assert LevelLengths(shown)[..i + 1][..i] == LevelLengths(shown)[..i];
      assert FileLengths(shown)[..i + 1][..i] == FileLengths(shown)[..i];
      if |shown[i].level| > sizeLevel {
        sizeLevel := |shown[i].level|;
      }
      if |shown[i].file| > sizeFile {
        sizeFile := |shown[i].file|;
      }
      i := i + 1;
    }
    assert LevelLengths(shown)[..i] == LevelLengths(shown);
    assert FileLengths(shown)[..i] == FileLengths(shown);
    WidestLevel(shown);
    WidestFile(shown);
  }

  /** The header and the separator and item rows, tracking the previous
      type from -1. */
  method TypeRows(shown: seq<LegacyLine>) returns (rows: seq<Row>)
    ensures rows == [Header] + SeparatedRows(Types(shown), -1)
  {
    ghost var types := Types(shown);
    var previousType := -1;
    rows := [Header];
    var i := 0;
    while i < |shown|
      invariant 0 <= i <= |shown|
      invariant rows == [Header] + SeparatedRows(types[..i], -1)
      invariant previousType == KeyBefore(types, -1, i)
    {
      assert types[..i + 1][..i] == types[..i];
      assert KeyBefore(types[..i + 1], -1, i) == previousType;
      if previousType != shown[i].lineType {
        rows := rows + [Separator];
      }
      previousType := shown[i].lineType;
      rows := rows + [Item(i)];
      i := i + 1;
    }
    assert types[..i] == types;
  }
}
