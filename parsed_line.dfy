/** The parsed form of one log line and `ParsedLine::Parse`, which classifies
    a line by trying the full Chrome pattern, then the short Chrome pattern,
    then the gtest banner, and falls back to UNKNOWN. */
module ParsedLines {
  import opened Text
  import opened Wrappers
  import opened LogPatterns

  /** The kinds of line. NINJA is declared next to the others but no parser
      produces it. */
  datatype LineType = GTEST | LOG | UNKNOWN | NINJA

  datatype ParsedLine = ParsedLine(
    lineType: LineType,
    processId: int, threadId: int, translatedThreadId: string,
    month: int, day: int,
    hour: int, minute: int, seconds: int, milliseconds: int,
    unknown: string, level: string,
    file: string, line: string, log: string)

  /** A record with every member at its default: numbers 0, strings empty. */
  function Blank(t: LineType): ParsedLine {
    ParsedLine(t, 0, 0, "", 0, 0, 0, 0, 0, 0, "", "", "", "", "")
  }

  /** The groups std::stoi converts are digit strings. */
  predicate Numeric(f: ChromeFields) {
    && AllDigits(f.pid) && AllDigits(f.tid)
    && AllDigits(f.month) && AllDigits(f.day)
    && AllDigits(f.hour) && AllDigits(f.minute) && AllDigits(f.seconds)
    && AllDigits(f.millis)
  }

  /** Every std::stoi conversion of the groups yields a value that fits in an int. */
  predicate FitsInt(f: ChromeFields) {
    && Numeric(f)
    && DecimalValue(f.pid) <= INT_MAX && DecimalValue(f.tid) <= INT_MAX
    && DecimalValue(f.millis) <= INT_MAX
  }

  /** `p` is the LOG record whose members are converted from the groups `f`. */
  predicate ReadsAs(p: ParsedLine, f: ChromeFields) {
    && Numeric(f)
    && p.lineType == LOG
    && p.processId == DecimalValue(f.pid) && p.threadId == DecimalValue(f.tid)
    && p.translatedThreadId == ""
    && p.month == DecimalValue(f.month) && p.day == DecimalValue(f.day)
    && p.hour == DecimalValue(f.hour) && p.minute == DecimalValue(f.minute)
    && p.seconds == DecimalValue(f.seconds) && p.milliseconds == DecimalValue(f.millis)
    && p.unknown == f.unknown && p.level == f.level
    && p.file == f.file && p.line == "(" + f.lineNo + ")" && p.log == f.log
  }

  /** The LOG record built from the groups of a Chrome match. */
  function FromChrome(f: ChromeFields): (p: ParsedLine)
    requires Numeric(f)
    ensures ReadsAs(p, f)
  {
    ParsedLine(LOG, DecimalValue(f.pid), DecimalValue(f.tid), "",
               DecimalValue(f.month), DecimalValue(f.day),
               DecimalValue(f.hour), DecimalValue(f.minute), DecimalValue(f.seconds),
               DecimalValue(f.millis),
               f.unknown, f.level, f.file, "(" + f.lineNo + ")", f.log)
  }

  /** The precondition of Parse: whichever Chrome pattern is selected, its
      numeric groups are within the range of std::stoi. */
  predicate ParseFits(line: string) {
    match MatchChrome(line, true)
    case Some(f) => FitsInt(f)
    case None =>
      match MatchChrome(line, false)
      case Some(f) => FitsInt(f)
      case None => true
  }

  function Parse(line: string): (p: ParsedLine)
    requires ParseFits(line)
    ensures p.lineType == LOG || p.lineType == GTEST || p.lineType == UNKNOWN
    ensures p.translatedThreadId == ""
    ensures p.lineType == LOG ==> 0 <= p.processId <= INT_MAX && 0 <= p.threadId <= INT_MAX
    ensures p.lineType == LOG ==> 0 <= p.milliseconds <= INT_MAX
  {
    match MatchChrome(line, true)
    case Some(f) => FromChrome(f)
    case None =>
      match MatchChrome(line, false)
      case Some(f) => FromChrome(f)
      case None =>
        match MatchGtest(line)
        case Some(g) => Blank(GTEST).(level := "GTEST", line := "", log := "[" + g.0 + "]")
        case None => Blank(UNKNOWN).(level := "UNKNOWN", log := line)
  }

  /** The records of a sequence of lines, one per line, in order. */
  function ParseEach(texts: seq<string>): (r: seq<ParsedLine>)
    requires forall i :: 0 <= i < |texts| ==> ParseFits(texts[i])
    ensures |r| == |texts| && forall i :: 0 <= i < |texts| ==> r[i] == Parse(texts[i])
  {
    seq(|texts|, i requires 0 <= i < |texts| => Parse(texts[i]))
  }

  // ---------------------------------------------------------------------
  // Properties of Parse.
  // ---------------------------------------------------------------------

  /** A LOG record is a reading of its line by one of the Chrome patterns:
      the full one exactly when `unknown` is non-empty. */
  lemma ParseLogSound(line: string)
    requires ParseFits(line) && Parse(line).lineType == LOG
    ensures exists f: ChromeFields, withUnknown: bool ::
              && WellFormedChrome(f, withUnknown) && ChromeLayout(f, withUnknown) == line
              && ReadsAs(Parse(line), f) && (withUnknown <==> Parse(line).unknown != "")
  {
    if MatchChrome(line, true).Some? {
      var f := MatchChrome(line, true).value;
      assert WellFormedChrome(f, true) && ChromeLayout(f, true) == line;
    } else {
      var f := MatchChrome(line, false).value;
      assert WellFormedChrome(f, false) && ChromeLayout(f, false) == line;
    }
  }

  /** Any line in the shape of the full Chrome pattern is LOG, with the
      numeric members converted from the digit groups in order, `unknown`
      and `level` from their groups, and a file at least as long as the
      given reading's (greedy `(.+)`); as a whole, the record read from the
      pattern's own match, which has the given reading's leading fields. */
  lemma ParseFullPattern(line: string, f: ChromeFields)
    requires WellFormedChrome(f, true) && ChromeLayout(f, true) == line
    requires FitsInt(f)
    ensures ParseFits(line)
    ensures Parse(line).lineType == LOG
    ensures Parse(line).processId == DecimalValue(f.pid) && Parse(line).threadId == DecimalValue(f.tid)
    ensures Parse(line).month == DecimalValue(f.month) && Parse(line).day == DecimalValue(f.day)
    ensures Parse(line).hour == DecimalValue(f.hour) && Parse(line).minute == DecimalValue(f.minute)
    ensures Parse(line).seconds == DecimalValue(f.seconds)
    ensures Parse(line).milliseconds == DecimalValue(f.millis)
    ensures Parse(line).unknown == f.unknown && Parse(line).unknown != ""
    ensures Parse(line).level == f.level
    ensures |f.file| <= |Parse(line).file|
    ensures MatchChrome(line, true).Some? && SamePrefix(f, MatchChrome(line, true).value)
    ensures ReadsAs(Parse(line), MatchChrome(line, true).value)
  {
    ChromeComplete(f, true);
  }

  /** A line in the shape of the short pattern only is LOG with an empty
      `unknown`: the record read from the short pattern's own (greedy)
      match, which has the given reading's leading fields. */
  lemma ParseShortPatternOnly(line: string, f: ChromeFields)
    requires WellFormedChrome(f, false) && ChromeLayout(f, false) == line
    requires MatchChrome(line, true).None?
    requires FitsInt(f)
    ensures ParseFits(line)
    ensures Parse(line).lineType == LOG
    ensures Parse(line).processId == DecimalValue(f.pid) && Parse(line).threadId == DecimalValue(f.tid)
    ensures Parse(line).month == DecimalValue(f.month) && Parse(line).day == DecimalValue(f.day)
    ensures Parse(line).hour == DecimalValue(f.hour) && Parse(line).minute == DecimalValue(f.minute)
    ensures Parse(line).seconds == DecimalValue(f.seconds)
    ensures Parse(line).milliseconds == DecimalValue(f.millis)
    ensures Parse(line).unknown == ""
    ensures Parse(line).level == f.level
    ensures |f.file| <= |Parse(line).file|
    ensures MatchChrome(line, false).Some? && SamePrefix(f, MatchChrome(line, false).value)
    ensures ReadsAs(Parse(line), MatchChrome(line, false).value)
  {
    ChromeComplete(f, false);
  }

  /** The file of a LOG record is the longest among all readings of the line
      by the pattern that was selected. */
  lemma ParseFileIsLongest(line: string, f: ChromeFields, withUnknown: bool)
    requires ParseFits(line) && Parse(line).lineType == LOG
    requires withUnknown <==> Parse(line).unknown != ""
    requires WellFormedChrome(f, withUnknown) && ChromeLayout(f, withUnknown) == line
    ensures |f.file| <= |Parse(line).file|
  {
    ChromeComplete(f, withUnknown);
    if !withUnknown && MatchChrome(line, true).Some? {
      assert false;
    }
  }

  /** The `line` member of a LOG record is `(` digits `)`, and the date and
      time members come from two digits each. */
  lemma ParseLogShape(line: string)
    requires ParseFits(line) && Parse(line).lineType == LOG
    ensures exists d :: IsDecimal(d) && Parse(line).line == "(" + d + ")"
    ensures 0 <= Parse(line).month <= 99 && 0 <= Parse(line).day <= 99
    ensures 0 <= Parse(line).hour <= 99 && 0 <= Parse(line).minute <= 99
    ensures 0 <= Parse(line).seconds <= 99
  {
    var withUnknown := MatchChrome(line, true).Some?;
    var f := MatchChrome(line, withUnknown).value;
    assert IsDecimal(f.lineNo);
    DecimalValueBound(f.month);
    DecimalValueBound(f.day);
    DecimalValueBound(f.hour);
    DecimalValueBound(f.minute);
    DecimalValueBound(f.seconds);
  }

  /** A gtest banner line is GTEST: level "GTEST", an empty `line`, the log
      `[` + the ten characters + `]`, everything after the banner dropped
      and every number 0. */
  lemma ParseGtest(banner: string, rest: string)
    requires WellFormedGtest(banner, rest)
    ensures ParseFits(GtestLayout(banner, rest))
    ensures Parse(GtestLayout(banner, rest)).lineType == GTEST
    ensures Parse(GtestLayout(banner, rest)).level == "GTEST"
    ensures Parse(GtestLayout(banner, rest)).line == ""
    ensures Parse(GtestLayout(banner, rest)).log == "[" + banner + "]"
    ensures Parse(GtestLayout(banner, rest)).processId == 0 && Parse(GtestLayout(banner, rest)).threadId == 0
    ensures Parse(GtestLayout(banner, rest)).milliseconds == 0
    ensures Parse(GtestLayout(banner, rest)).file == "" && Parse(GtestLayout(banner, rest)).unknown == ""
    ensures Parse(GtestLayout(banner, rest)) == Blank(GTEST).(level := "GTEST", log := "[" + banner + "]")
  {
    var line := GtestLayout(banner, rest);
    GtestComplete(banner, rest);
    GtestExcludesChrome(line, true);
    GtestExcludesChrome(line, false);
  }

  /** UNKNOWN exactly when no pattern matches; the record then holds the
      whole line as its log, level "UNKNOWN" and nothing else. */
  lemma ParseUnknown(line: string)
    requires ParseFits(line)
    ensures Parse(line).lineType == UNKNOWN <==>
              MatchChrome(line, true).None? && MatchChrome(line, false).None? && MatchGtest(line).None?
    ensures Parse(line).lineType == UNKNOWN ==>
              Parse(line) == Blank(UNKNOWN).(level := "UNKNOWN", log := line)
  {
  }
}
