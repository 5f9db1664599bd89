/** Hand-rolled recognisers for the three regular expressions the log viewer
    classifies lines with, applied with std::regex_match (the whole line must
    match):

      full Chrome line:  ^\[(\d+):(\d+):(\d\d)(\d\d)\/(\d\d)(\d\d)(\d\d)\.(\d+):(\d+):(\w+):(.+)\((\d+)\)\] (.*)$
      short Chrome line: the same without the `(\d+):` group after the milliseconds
      gtest banner:      ^\[(..........)\] (.*)$

    Everything up to the file group is deterministic: each `\d+` or `\w+`
    group is followed by a character the group cannot contain. The greedy
    `(.+)` file group is matched by backtracking, longest first, exactly as
    the ECMAScript engine does, so the file is the longest prefix after which
    `\((\d+)\)\] (.*)$` still matches.

    Each recogniser comes with a layout function, the text a line with the
    given groups has; the lemmas show that a recogniser returns groups whose
    layout is the line (soundness), that every layout of well-formed groups
    is recognised (completeness), and that of all such layouts the one with
    the longest file is chosen (greediness). */
module LogPatterns {
  import opened Text
  import opened Wrappers

  // ---------------------------------------------------------------------
  // Primitive recognisers: each consumes a prefix and returns the rest.
  // ---------------------------------------------------------------------

  /** A literal character. */
  function Lit(s: string, c: char): (r: Option<string>)
    ensures r.Some? <==> |s| > 0 && s[0] == c
    ensures r.Some? ==> s == [c] + r.value
  {
    if |s| > 0 && s[0] == c then Some(s[1..]) else None
  }

  /** The length of the run of digits `\d+` consumes at the start of `s`. */
  function DigitRun(s: string): (n: nat)
    ensures n <= |s|
    ensures AllDigits(s[..n])
    ensures n == |s| || !IsDigit(s[n])
  {
    if |s| == 0 || !IsDigit(s[0]) then 0
    else
      var m := DigitRun(s[1..]);
      assert forall i :: 1 <= i < 1 + m ==> s[i] == s[1..][..m][i - 1];
      1 + m
  }

  /** The length of the run of word characters `\w+` consumes at the start of `s`. */
  function WordRun(s: string): (n: nat)
    ensures n <= |s|
    ensures AllWordChars(s[..n])
    ensures n == |s| || !IsWordChar(s[n])
  {
    if |s| == 0 || !IsWordChar(s[0]) then 0
    else
      var m := WordRun(s[1..]);
      assert forall i :: 1 <= i < 1 + m ==> s[i] == s[1..][..m][i - 1];
      1 + m
  }

  /** `(\d+)c`: a digit group followed by the literal `c`. */
  function DigitsThen(s: string, c: char): (r: Option<(string, string)>)
    ensures r.Some? ==> IsDecimal(r.value.0) && s == r.value.0 + ([c] + r.value.1)
  {
    var n := DigitRun(s);
    if 0 < n < |s| && s[n] == c then
      assert s == s[..n] + ([c] + s[n + 1..]);
      Some((s[..n], s[n + 1..]))
    else None
  }

  /** `(\w+)c`: a word group followed by the literal `c`. */
  function WordThen(s: string, c: char): (r: Option<(string, string)>)
    ensures r.Some? ==> |r.value.0| > 0 && AllWordChars(r.value.0)
    ensures r.Some? ==> s == r.value.0 + ([c] + r.value.1)
  {
    var n := WordRun(s);
    if 0 < n < |s| && s[n] == c then
      assert s == s[..n] + ([c] + s[n + 1..]);
      Some((s[..n], s[n + 1..]))
    else None
  }

  /** `(\d\d)`: exactly two digits. */
  function TwoDigits(s: string): (r: Option<(string, string)>)
    ensures r.Some? ==> |r.value.0| == 2 && AllDigits(r.value.0) && s == r.value.0 + r.value.1
  {
    if |s| >= 2 && IsDigit(s[0]) && IsDigit(s[1]) then
      assert s == s[..2] + s[2..];
      Some((s[..2], s[2..]))
    else None
  }

  lemma LitOf(c: char, t: string)
    ensures Lit([c] + t, c) == Some(t)
  {
    assert ([c] + t)[1..] == t;
  }

  lemma {:induction false} DigitRunOf(d: string, t: string)
    requires AllDigits(d)
    requires |t| == 0 || !IsDigit(t[0])
    ensures DigitRun(d + t) == |d|
  {
    if |d| > 0 {
      assert (d + t)[1..] == d[1..] + t;
      DigitRunOf(d[1..], t);
    }
  }

  lemma {:induction false} WordRunOf(w: string, t: string)
    requires AllWordChars(w)
    requires |t| == 0 || !IsWordChar(t[0])
    ensures WordRun(w + t) == |w|
  {
    if |w| > 0 {
      assert (w + t)[1..] == w[1..] + t;
      WordRunOf(w[1..], t);
    }
  }

  lemma DigitsThenOf(d: string, c: char, t: string)
    requires IsDecimal(d) && !IsDigit(c)
    ensures DigitsThen(d + ([c] + t), c) == Some((d, t))
  {
    var s := d + ([c] + t);
    DigitRunOf(d, [c] + t);
    assert s[..|d|] == d;
    assert s[|d| + 1..] == t;
  }

  lemma WordThenOf(w: string, c: char, t: string)
    requires |w| > 0 && AllWordChars(w) && !IsWordChar(c)
    ensures WordThen(w + ([c] + t), c) == Some((w, t))
  {
    var s := w + ([c] + t);
    WordRunOf(w, [c] + t);
    assert s[..|w|] == w;
    assert s[|w| + 1..] == t;
  }

  lemma TwoDigitsOf(d: string, t: string)
    requires |d| == 2 && AllDigits(d)
    ensures TwoDigits(d + t) == Some((d, t))
  {
    assert (d + t)[..2] == d;
    assert (d + t)[2..] == t;
  }

  // ---------------------------------------------------------------------
  // The tail `(.+)\((\d+)\)\] (.*)$` shared by both Chrome patterns.
  // ---------------------------------------------------------------------

  /** The text of a tail whose groups are `file`, `lineNo` and `log`. */
  function TailLayout(file: string, lineNo: string, log: string): string {
    file + ("(" + (lineNo + (")" + ("]" + (" " + log)))))
  }

  predicate WellFormedTail(file: string, lineNo: string, log: string) {
    |file| > 0 && NoTerminator(file) && IsDecimal(lineNo) && NoTerminator(log)
  }

  /** Whether `r[k..]` matches `\((\d+)\)\] (.*)$`; if so, the line-number
      digits and the log text. The digit group is followed by `)`, which it
      cannot contain, and `(.*)$` must reach the end, so there is at most
      one way to match. */
  function MatchTailAt(r: string, k: nat): (m: Option<(string, string)>)
    requires k <= |r|
    ensures m.Some? ==> IsDecimal(m.value.0) && NoTerminator(m.value.1)
    ensures m.Some? ==> r[k..] == "(" + (m.value.0 + (")" + ("]" + (" " + m.value.1))))
  {
    var afterParen :- Lit(r[k..], '(');
    var digits :- DigitsThen(afterParen, ')');
    var afterBracket :- Lit(digits.1, ']');
    var log :- Lit(afterBracket, ' ');
    if NoTerminator(log) then Some((digits.0, log)) else None
  }

  /** `(.+)` can take the first `k` characters of `r` and the rest of the
      tail then matches. */
  predicate SplitOk(r: string, k: nat) {
    1 <= k <= |r| && NoTerminator(r[..k]) && MatchTailAt(r, k).Some?
  }

  /** The backtracking of a greedy group: the largest of `k, k-1, ..., 1`
      that `ok` accepts, tried in that order. */
  function LastAccepted(ok: nat -> bool, k: nat): (j: Option<nat>)
    ensures j.Some? ==> 1 <= j.value <= k && ok(j.value)
    decreases k
  {
    if k == 0 then None
    else if ok(k) then Some(k)
    else LastAccepted(ok, k - 1)
  }

  /** No candidate above the one found (or, when none is found, none at
      all) up to `k` is accepted. */
  lemma {:induction false} LastAcceptedMaximal(ok: nat -> bool, k: nat, i: nat)
    requires (if LastAccepted(ok, k).Some? then LastAccepted(ok, k).value else 0) < i <= k
    ensures !ok(i)
    decreases k
  {
    if i < k {
      LastAcceptedMaximal(ok, k - 1, i);
    }
  }

  /** The split points `(.+)` tries on `r`: `k, k-1, ..., 1`, the first that
      lets the rest match. */
  function LongestSplit(r: string): (j: Option<nat>)
    ensures j.Some? ==> j.value <= |r| && SplitOk(r, j.value)
  {
    LastAccepted((k: nat) => SplitOk(r, k), |r|)
  }

  /** The groups `(file, lineNo, log)` of a tail. */
  function MatchTail(r: string): (m: Option<(string, string, string)>)
    ensures m.Some? ==> WellFormedTail(m.value.0, m.value.1, m.value.2)
    ensures m.Some? ==> r == TailLayout(m.value.0, m.value.1, m.value.2)
  {
    var j :- LongestSplit(r);
    var rest := MatchTailAt(r, j).value;
    assert r == r[..j] + r[j..];
    Some((r[..j], rest.0, rest.1))
  }

  /** Every well-formed tail is matched, and the file group matched is at
      least as long as the given one. */
  lemma TailComplete(file: string, lineNo: string, log: string)
    requires WellFormedTail(file, lineNo, log)
    ensures MatchTail(TailLayout(file, lineNo, log)).Some?
    ensures |file| <= |MatchTail(TailLayout(file, lineNo, log)).value.0|
  {
    var r := TailLayout(file, lineNo, log);
    var k := |file|;
    assert r[..k] == file;
    assert r[k..] == "(" + (lineNo + (")" + ("]" + (" " + log))));
    LitOf('(', lineNo + (")" + ("]" + (" " + log))));
    DigitsThenOf(lineNo, ')', "]" + (" " + log));
    LitOf(']', " " + log);
    LitOf(' ', log);
    assert SplitOk(r, k);
    if LongestSplit(r).None? || LongestSplit(r).value < k {
      LastAcceptedMaximal((k: nat) => SplitOk(r, k), |r|, k);
    }
  }

  // ---------------------------------------------------------------------
  // The two Chrome log patterns.
  // ---------------------------------------------------------------------

  /** The groups of a Chrome log line, as text. `unknown` is the extra
      `(\d+)` group of the full pattern; the short pattern does not have it
      and leaves it empty. */
  datatype ChromeFields = ChromeFields(
    pid: string, tid: string,
    month: string, day: string, hour: string, minute: string, seconds: string,
    millis: string, unknown: string, level: string,
    file: string, lineNo: string, log: string)

  /** The text of a Chrome log line with groups `f`: in the shape of the full
      pattern when `withUnknown` holds, of the short pattern otherwise. */
  function ChromeLayout(f: ChromeFields, withUnknown: bool): string {
    var tail := TailLayout(f.file, f.lineNo, f.log);
    var fromLevel := f.level + (":" + tail);
    var afterMillis := if withUnknown then f.unknown + (":" + fromLevel) else fromLevel;
    "[" + (f.pid + (":" + (f.tid + (":" + (f.month + (f.day + ("/" +
      (f.hour + (f.minute + (f.seconds + ("." + (f.millis + (":" + afterMillis)))))))))))))
  }

  /** Groups each of which its sub-pattern accepts. */
  predicate WellFormedChrome(f: ChromeFields, withUnknown: bool) {
    && IsDecimal(f.pid) && IsDecimal(f.tid)
    && |f.month| == 2 && AllDigits(f.month) && |f.day| == 2 && AllDigits(f.day)
    && |f.hour| == 2 && AllDigits(f.hour) && |f.minute| == 2 && AllDigits(f.minute)
    && |f.seconds| == 2 && AllDigits(f.seconds)
    && IsDecimal(f.millis)
    && (if withUnknown then IsDecimal(f.unknown) else f.unknown == "")
    && |f.level| > 0 && AllWordChars(f.level)
    && WellFormedTail(f.file, f.lineNo, f.log)
  }

  /** Two sets of groups agree on everything before the file group. */
  predicate SamePrefix(f: ChromeFields, g: ChromeFields) {
    && f.pid == g.pid && f.tid == g.tid
    && f.month == g.month && f.day == g.day
    && f.hour == g.hour && f.minute == g.minute && f.seconds == g.seconds
    && f.millis == g.millis && f.unknown == g.unknown && f.level == g.level
  }

  /** std::regex_match of a line against the full (`withUnknown`) or the
      short Chrome pattern: the groups of the match, or None. */
  function MatchChrome(line: string, withUnknown: bool): (m: Option<ChromeFields>)
    ensures m.Some? ==> WellFormedChrome(m.value, withUnknown)
    ensures m.Some? ==> ChromeLayout(m.value, withUnknown) == line
  {
    var s0 :- Lit(line, '[');
    var pid :- DigitsThen(s0, ':');
    var tid :- DigitsThen(pid.1, ':');
    var month :- TwoDigits(tid.1);
    var day :- TwoDigits(month.1);
    var s5 :- Lit(day.1, '/');
    var hour :- TwoDigits(s5);
    var minute :- TwoDigits(hour.1);
    var seconds :- TwoDigits(minute.1);
    var s9 :- Lit(seconds.1, '.');
    var millis :- DigitsThen(s9, ':');
    var unknown :- if withUnknown then DigitsThen(millis.1, ':') else Some(("", millis.1));
    var level :- WordThen(unknown.1, ':');
    var tail :- MatchTail(level.1);
    Some(ChromeFields(pid.0, tid.0, month.0, day.0, hour.0, minute.0, seconds.0,
                      millis.0, unknown.0, level.0, tail.0, tail.1, tail.2))
  }

  /** Every line laid out from well-formed groups is matched; the match
      agrees with the groups up to the file, and its file group is at least
      as long (the greedy `(.+)`). */
  lemma ChromeComplete(f: ChromeFields, withUnknown: bool)
    requires WellFormedChrome(f, withUnknown)
    ensures MatchChrome(ChromeLayout(f, withUnknown), withUnknown).Some?
    ensures SamePrefix(f, MatchChrome(ChromeLayout(f, withUnknown), withUnknown).value)
    ensures |f.file| <= |MatchChrome(ChromeLayout(f, withUnknown), withUnknown).value.file|
  {
    var tail := TailLayout(f.file, f.lineNo, f.log);
    var fromLevel := f.level + (":" + tail);
    var afterMillis := if withUnknown then f.unknown + (":" + fromLevel) else fromLevel;
    var s9 := f.millis + (":" + afterMillis);
    var s5 := f.hour + (f.minute + (f.seconds + ("." + s9)));
    var s2 := f.month + (f.day + ("/" + s5));
    var s1 := f.tid + (":" + s2);
    var s0 := f.pid + (":" + s1);
    LitOf('[', s0);
    DigitsThenOf(f.pid, ':', s1);
    DigitsThenOf(f.tid, ':', s2);
    TwoDigitsOf(f.month, f.day + ("/" + s5));
    TwoDigitsOf(f.day, "/" + s5);
    LitOf('/', s5);
    TwoDigitsOf(f.hour, f.minute + (f.seconds + ("." + s9)));
    TwoDigitsOf(f.minute, f.seconds + ("." + s9));
    TwoDigitsOf(f.seconds, "." + s9);
    LitOf('.', s9);
    DigitsThenOf(f.millis, ':', afterMillis);
    if withUnknown {
      DigitsThenOf(f.unknown, ':', fromLevel);
    }
    WordThenOf(f.level, ':', tail);
    TailComplete(f.file, f.lineNo, f.log);
  }

  /** The groups std::regex_match reports are those of the longest file
      among all ways to read the line. */
  lemma ChromeGreedy(line: string, withUnknown: bool, f: ChromeFields)
    requires WellFormedChrome(f, withUnknown) && ChromeLayout(f, withUnknown) == line
    ensures MatchChrome(line, withUnknown).Some?
    ensures |f.file| <= |MatchChrome(line, withUnknown).value.file|
  {
    ChromeComplete(f, withUnknown);
  }

  /** Every line of the full shape also has the short shape: the short
      pattern reads the extra digits as the level, and the level and the
      file together as the file. Hence the order the patterns are tried in
      decides the result. */
  lemma FullShapeHasShortShape(f: ChromeFields)
    requires WellFormedChrome(f, true)
    ensures MatchChrome(ChromeLayout(f, true), false).Some?
  {
    var g := f.(unknown := "", level := f.unknown, file := f.level + (":" + f.file));
    assert AllWordChars(f.unknown) by {
      forall i | 0 <= i < |f.unknown| ensures IsWordChar(f.unknown[i]) {
        assert IsDigit(f.unknown[i]);
      }
    }
    assert NoTerminator(g.file) by {
      forall i | 0 <= i < |g.file| ensures !IsLineTerminator(g.file[i]) {
        if i < |f.level| {
          assert g.file[i] == f.level[i] && IsWordChar(f.level[i]);
        } else if i > |f.level| {
          assert g.file[i] == f.file[i - |f.level| - 1];
        }
      }
    }
    assert WellFormedChrome(g, false);
    assert TailLayout(g.file, g.lineNo, g.log) == f.level + (":" + TailLayout(f.file, f.lineNo, f.log));
    assert ChromeLayout(g, false) == ChromeLayout(f, true);
    ChromeComplete(g, false);
  }

  // ---------------------------------------------------------------------
  // The gtest banner pattern.
  // ---------------------------------------------------------------------

  /** The text of a gtest banner line `[` + ten characters + `] ` + rest. */
  function GtestLayout(banner: string, rest: string): string {
    "[" + (banner + ("]" + (" " + rest)))
  }

  predicate WellFormedGtest(banner: string, rest: string) {
    |banner| == 10 && NoTerminator(banner) && NoTerminator(rest)
  }

  /** std::regex_match of a line against `^\[(..........)\] (.*)$`: the
      ten-character group and the rest, or None. */
  function MatchGtest(line: string): (m: Option<(string, string)>)
    ensures m.Some? ==> WellFormedGtest(m.value.0, m.value.1)
    ensures m.Some? ==> GtestLayout(m.value.0, m.value.1) == line
  {
    var s :- Lit(line, '[');
    if |s| >= 12 && NoTerminator(s[..10]) && s[10] == ']' && s[11] == ' ' && NoTerminator(s[12..]) then
      assert s == s[..10] + ("]" + (" " + s[12..]));
      Some((s[..10], s[12..]))
    else None
  }

  /** Every gtest banner line is matched, with its own groups. */
  lemma GtestComplete(banner: string, rest: string)
    requires WellFormedGtest(banner, rest)
    ensures MatchGtest(GtestLayout(banner, rest)) == Some((banner, rest))
  {
    var s := banner + ("]" + (" " + rest));
    LitOf('[', s);
    assert s[..10] == banner;
    assert s[12..] == rest;
  }

  /** The characters at positions 1..16 of a Chrome line are digits, `:`,
      `/` or `.`; in particular position 11 is never `]`. */
  lemma {:induction false} ChromeEleventhChar(f: ChromeFields, withUnknown: bool)
    requires WellFormedChrome(f, withUnknown)
    ensures |ChromeLayout(f, withUnknown)| > 12
    ensures ChromeLayout(f, withUnknown)[11] != ']'
  {
    var line := ChromeLayout(f, withUnknown);
    var rest := f.millis;
    var stamp := f.month + (f.day + ("/" + (f.hour + (f.minute + (f.seconds + ("." + rest))))));
    // a prefix made of digits, ':', '/' and '.' that reaches past index 11
    var head := "[" + (f.pid + (":" + (f.tid + (":" + stamp))));
    assert |stamp| >= 11;
    assert line[..|head|] == head;
    assert forall i :: 1 <= i < |head| ==> head[i] != ']' by {
      forall i | 1 <= i < |head| ensures head[i] != ']' {
        var a := |f.pid|;
        var b := |f.tid|;
        if i <= a {
          assert head[i] == f.pid[i - 1];
        } else if i == a + 1 {
        } else if i <= a + b + 1 {
          assert head[i] == f.tid[i - a - 2];
        } else if i == a + b + 2 {
        } else {
          var j := i - a - b - 3;
          assert head[i] == stamp[j];
          if j < 2 {
            assert stamp[j] == f.month[j];
          } else if j < 4 {
            assert stamp[j] == f.day[j - 2];
          } else if j == 4 {
          } else if j < 7 {
            assert stamp[j] == f.hour[j - 5];
          } else if j < 9 {
            assert stamp[j] == f.minute[j - 7];
          } else if j < 11 {
            assert stamp[j] == f.seconds[j - 9];
          } else if j == 11 {
          } else {
            assert stamp[j] == rest[j - 12];
          }
        }
      }
    }
    assert line[11] == head[11];
  }

  /** A gtest banner line never matches a Chrome pattern. */
  lemma GtestExcludesChrome(line: string, withUnknown: bool)
    requires MatchGtest(line).Some?
    ensures MatchChrome(line, withUnknown).None?
  {
    if MatchChrome(line, withUnknown).Some? {
      ChromeEleventhChar(MatchChrome(line, withUnknown).value, withUnknown);
      assert false;
    }
  }
}
