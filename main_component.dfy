/** The bookkeeping of the main view: the parsed lines, the translation of
    (process id, thread id) pairs into short labels such as `A0` and `B1`,
    the level checkboxes, the per-process columns of thread checkboxes, and
    the filter that keeps the lines whose level and thread are checked. */
module MainComponents {
  import opened Text
  import opened ParsedLines

  // ---------------------------------------------------------------------
  // The translation of thread ids.
  // ---------------------------------------------------------------------

  /** Process letters are `'A' + n`; the model keeps them below the UTF-16
      surrogate range, where they stop being characters. */
  const MAX_PROCESSES: nat := 0xD800 - 65

  /** process id -> (its letter, thread id -> its index within the process). */
  type Translation = map<int, (string, map<int, string>)>

  /** The letter of the process that was the `n`-th to be seen (from 0). */
  function Letter(n: nat): (c: char)
    requires n < MAX_PROCESSES
    ensures c as int == 65 + n
  {
    (65 + n) as char
  }

  /** The thread indices of one process: the decimal strings of distinct
      numbers below the count of threads. */
  ghost predicate ValidThreads(m: map<int, string>) {
    && (forall t :: t in m ==>
          IsDecimal(m[t]) && DecimalValue(m[t]) < |m| && m[t] == NatToString(DecimalValue(m[t])))
    && (forall t, u :: t in m && u in m && t != u ==> m[t] != m[u])
  }

  /** Process 0 is never translated; each translated process has a one-letter
      label `'A' + k` with `k` below the count of processes, distinct
      processes have distinct letters, and its thread indices are valid. */
  ghost predicate ValidTranslation(tr: Translation) {
    && 0 !in tr
    && (forall p :: p in tr ==>
          |tr[p].0| == 1 && 65 <= tr[p].0[0] as int < 65 + |tr| && ValidThreads(tr[p].1))
    && (forall p, q :: p in tr && q in tr && p != q ==> tr[p].0 != tr[q].0)
  }

  /** A new process can still be given a letter. */
  predicate CanTranslate(tr: Translation, pid: int) {
    pid == 0 || pid in tr || |tr| < MAX_PROCESSES
  }

  /** The translation after `ComputeTranslatedThreadID` has seen the pair:
      a process seen for the first time gets the next letter, a thread seen
      for the first time within its process the next index; process 0 is
      left out. */
  function Translated(tr: Translation, pid: int, tid: int): (r: Translation)
    requires CanTranslate(tr, pid)
    ensures pid != 0 ==> pid in r && tid in r[pid].1
  {
    if pid == 0 then tr
    else
      var entry := if pid in tr then tr[pid] else ([Letter(|tr|)], map[]);
      var threads := if tid in entry.1 then entry.1 else entry.1[tid := NatToString(|entry.1|)];
      tr[pid := (entry.0, threads)]
  }

  /** Translating adds at most the one process, and no other. */
  lemma TranslatedProcesses(tr: Translation, pid: int, tid: int)
    requires CanTranslate(tr, pid)
    ensures Translated(tr, pid, tid).Keys == if pid == 0 then tr.Keys else tr.Keys + {pid}
    ensures |Translated(tr, pid, tid)| == if pid == 0 || pid in tr then |tr| else |tr| + 1
  {
  }

  /** The label of a translated pair: the process letter followed by the
      thread index. */
  function IdOf(tr: Translation, pid: int, tid: int): string
    requires pid in tr && tid in tr[pid].1
  {
    tr[pid].0 + tr[pid].1[tid]
  }

  /** The label `ComputeTranslatedThreadID` gives the pair: a blank for
      process 0, else the pair's label in the updated translation. */
  function ThreadLabel(tr: Translation, pid: int, tid: int): string
    requires CanTranslate(tr, pid)
  {
    if pid == 0 then " " else IdOf(Translated(tr, pid, tid), pid, tid)
  }

  /** Giving a new thread the next index keeps the indices valid. */
  lemma ThreadsGrowValid(m: map<int, string>, tid: int)
    requires ValidThreads(m) && tid !in m
    ensures ValidThreads(m[tid := NatToString(|m|)])
  {
    var index := NatToString(|m|);
    DecimalRoundTrip(|m|);
    forall t | t in m ensures m[t] != index {
      NatToStringInjective(DecimalValue(m[t]), |m|);
    }
  }

  /** Translating keeps the translation valid. */
  lemma TranslatedValid(tr: Translation, pid: int, tid: int)
    requires ValidTranslation(tr) && CanTranslate(tr, pid)
    ensures ValidTranslation(Translated(tr, pid, tid))
  {
    if pid != 0 {
      var entry := if pid in tr then tr[pid] else ([Letter(|tr|)], map[]);
      if tid !in entry.1 {
        ThreadsGrowValid(entry.1, tid);
      }
      TranslatedProcesses(tr, pid, tid);
    }
  }

  /** Translating never changes a letter or an index already given out. */
  lemma TranslatedStable(tr: Translation, pid: int, tid: int)
    requires CanTranslate(tr, pid)
    ensures forall p :: p in tr ==> p in Translated(tr, pid, tid) && Translated(tr, pid, tid)[p].0 == tr[p].0
    ensures forall p, t :: p in tr && t in tr[p].1 ==>
              t in Translated(tr, pid, tid)[p].1 && Translated(tr, pid, tid)[p].1[t] == tr[p].1[t]
  {
  }

  /** Translating a known pair changes nothing. */
  lemma TranslatedKnown(tr: Translation, pid: int, tid: int)
    requires pid != 0 && pid in tr && tid in tr[pid].1
    ensures Translated(tr, pid, tid) == tr
  {
  }

  /** The first process gets `A`, the next `B`, and so on; within a process
      the first thread gets `0`, the next `1`, and so on. */
  lemma TranslatedFresh(tr: Translation, pid: int, tid: int)
    requires pid != 0 && CanTranslate(tr, pid)
    ensures pid !in tr ==> Translated(tr, pid, tid)[pid].0 == [(65 + |tr|) as char]
    ensures pid !in tr ==> ThreadLabel(tr, pid, tid) == [(65 + |tr|) as char] + "0"
    ensures pid in tr && tid !in tr[pid].1 ==>
              Translated(tr, pid, tid)[pid].1[tid] == NatToString(|tr[pid].1|)
  {
  }

  /** Distinct translated pairs have distinct labels, and no label of a
      translated pair is the blank of process 0. */
  lemma LabelsDistinct(tr: Translation, p1: int, t1: int, p2: int, t2: int)
    requires ValidTranslation(tr)
    requires p1 in tr && t1 in tr[p1].1 && p2 in tr && t2 in tr[p2].1
    ensures |IdOf(tr, p1, t1)| >= 2
    ensures (p1, t1) != (p2, t2) ==> IdOf(tr, p1, t1) != IdOf(tr, p2, t2)
  {
    var a, b := tr[p1].0, tr[p1].1[t1];
    var c, d := tr[p2].0, tr[p2].1[t2];
    assert a == (a + b)[..1] && b == (a + b)[1..];
    assert c == (c + d)[..1] && d == (c + d)[1..];
  }

  // ---------------------------------------------------------------------
  // Level and thread checkboxes.
  // ---------------------------------------------------------------------

  /** `RegisterLogLevel`: a new level is added checked; a known one keeps
      its state. */
  function RegisterLevel(boxes: map<string, bool>, level: string): (r: map<string, bool>)
    ensures r.Keys == boxes.Keys + {level}
  {
    if level in boxes then boxes else boxes[level := true]
  }

  /** A known level keeps its state; a new one starts checked. */
  lemma RegisterLevelStates(boxes: map<string, bool>, level: string)
    ensures forall l :: l in boxes ==> RegisterLevel(boxes, level)[l] == boxes[l]
    ensures level !in boxes ==> RegisterLevel(boxes, level)[level]
  {
  }

  lemma RegisterLevelIdempotent(boxes: map<string, bool>, level: string)
    ensures RegisterLevel(RegisterLevel(boxes, level), level) == RegisterLevel(boxes, level)
  {
  }

  /** The column a thread label is filed under: its first character (the
      process letter), or the terminating NUL of an empty label. */
  function ColumnKey(id: string): int {
    if |id| == 0 then 0 else id[0] as int
  }

  /** `RegisterThreadId`: the column is created on first use, and the label
      is added to it checked unless it is already there. */
  function RegisterThread(filters: map<int, map<string, bool>>, id: string): (r: map<int, map<string, bool>>)
    ensures r.Keys == filters.Keys + {ColumnKey(id)}
  {
    var key := ColumnKey(id);
    var column := if key in filters then filters[key] else map[];
    filters[key := if id in column then column else column[id := true]]
  }

  /** Other columns are untouched; the label ends up in its column; known
      labels keep their states and a new label starts checked. */
  lemma RegisterThreadStates(filters: map<int, map<string, bool>>, id: string)
    ensures forall k :: k in filters && k != ColumnKey(id) ==> RegisterThread(filters, id)[k] == filters[k]
    ensures id in RegisterThread(filters, id)[ColumnKey(id)]
    ensures forall k, t :: k in filters && t in filters[k] ==>
              t in RegisterThread(filters, id)[k] && RegisterThread(filters, id)[k][t] == filters[k][t]
    ensures ColumnKey(id) !in filters || id !in filters[ColumnKey(id)] ==>
              RegisterThread(filters, id)[ColumnKey(id)][id]
  {
  }

  lemma RegisterThreadIdempotent(filters: map<int, map<string, bool>>, id: string)
    ensures RegisterThread(RegisterThread(filters, id), id) == RegisterThread(filters, id)
  {
  }

  /** The checked labels of one column (or the checked levels). */
  function CheckedIn(column: map<string, bool>): set<string> {
    set l | l in column && column[l]
  }

  /** The checked thread labels of the columns in `order`. */
  function CheckedThreads(filters: map<int, map<string, bool>>, order: seq<int>): set<string> {
    if |order| == 0 then {}
    else
      var n := |order| - 1;
      CheckedThreads(filters, order[..n]) + (if order[n] in filters then CheckedIn(filters[order[n]]) else {})
  }

  /** A label is allowed exactly when it is checked in some listed column. */
  lemma {:induction false} CheckedThreadsMembers(filters: map<int, map<string, bool>>, order: seq<int>, id: string)
    ensures id in CheckedThreads(filters, order) <==>
              exists i :: 0 <= i < |order| && order[i] in filters && id in filters[order[i]] && filters[order[i]][id]
  {
    if |order| > 0 {
      var n := |order| - 1;
      CheckedThreadsMembers(filters, order[..n], id);
      if id in CheckedThreads(filters, order[..n]) {
        var i :| 0 <= i < n && order[..n][i] in filters && id in filters[order[..n][i]] && filters[order[..n][i]][id];
        assert order[i] == order[..n][i];
      }
      if exists i :: 0 <= i < |order| && order[i] in filters && id in filters[order[i]] && filters[order[i]][id] {
        var i :| 0 <= i < |order| && order[i] in filters && id in filters[order[i]] && filters[order[i]][id];
        if i < n {
          assert order[..n][i] == order[i];
        }
      }
    }
  }

  /** The filter of Render: level and thread label both allowed. */
  function ShownBy(levels: set<string>, threads: set<string>): ParsedLine -> bool {
    (l: ParsedLine) => l.level in levels && l.translatedThreadId in threads
  }

  /** The checked labels of a column, collected by iterating over the map. */
  method CollectChecked(column: map<string, bool>) returns (allowed: set<string>)
    ensures allowed == CheckedIn(column)
  {
    allowed := {};
    var remaining := column.Keys;
    while remaining != {}
      invariant remaining <= column.Keys
      invariant allowed == CheckedIn(column) - (set l | l in remaining)
      decreases |remaining|
    {
      var l :| l in remaining;
      if column[l] {
        allowed := allowed + {l};
      }
      remaining := remaining - {l};
    }
  }

  /** The records with their thread labels cleared. */
  function Untagged(ls: seq<ParsedLine>): (r: seq<ParsedLine>)
    ensures |r| == |ls| && forall i :: 0 <= i < |ls| ==> r[i] == ls[i].(translatedThreadId := "")
  {
    seq(|ls|, i requires 0 <= i < |ls| => ls[i].(translatedThreadId := ""))
  }

  lemma UntaggedSnoc(ls: seq<ParsedLine>, l: ParsedLine)
    ensures Untagged(ls + [l]) == Untagged(ls) + [l.(translatedThreadId := "")]
  {
  }

  /** Every column is listed once in `order`, and only columns are listed. */
  ghost predicate ColumnsListed(filters: map<int, map<string, bool>>, order: seq<int>) {
    && (forall k :: k in filters ==> k in order)
    && (forall k :: k in order ==> k in filters)
    && (forall i, j :: 0 <= i < j < |order| ==> order[i] != order[j])
  }

  /** The process ids other than 0 among the lines `ls`: the processes a
      batch of lines can add to the translation. */
  function NewProcesses(ls: seq<ParsedLine>): (ps: set<int>)
    ensures 0 !in ps
    ensures forall i :: 0 <= i < |ls| && ls[i].processId != 0 ==> ls[i].processId in ps
  {
    set i | 0 <= i < |ls| && ls[i].processId != 0 :: ls[i].processId
  }

  /** A subset has no more elements than its superset. */
  lemma {:induction false} SubsetCard<T>(a: set<T>, b: set<T>)
    requires a <= b
    ensures |a| <= |b|
    decreases |a|
  {
    if a != {} {
      var x :| x in a;
      SubsetCard(a - {x}, b - {x});
    }
  }

  /** A translation inside `allowed`, which fits the letters, can take any
      process of `allowed`. */
  lemma RoomFor(tr: Translation, allowed: set<int>, pid: int)
    requires tr.Keys <= allowed && |allowed| <= MAX_PROCESSES
    requires pid == 0 || pid in allowed
    ensures CanTranslate(tr, pid)
  {
    if pid != 0 && pid !in tr {
      SubsetCard(tr.Keys + {pid}, allowed);
    }
  }

  class MainComponent {
    var lines: seq<ParsedLine>
    var translation: Translation
    var levelCheckbox: map<string, bool>
    var threadFilters: map<int, map<string, bool>>
    var threadFiltersOrder: seq<int>

    /** Every column is listed once in the order of creation, and the
        translation is valid. */
    ghost predicate Valid()
      reads `translation, `threadFilters, `threadFiltersOrder
    {
      ValidTranslation(translation) && ColumnsListed(threadFilters, threadFiltersOrder)
    }

    constructor()
      ensures Valid()
      ensures lines == [] && translation == map[] && levelCheckbox == map[]
      ensures threadFilters == map[] && threadFiltersOrder == []
    {
      lines := [];
      translation := map[];
      levelCheckbox := map[];
      threadFilters := map[];
      threadFiltersOrder := [];
    }

    method ComputeTranslatedThreadID(pid: int, tid: int) returns (id: string)
      requires Valid() && CanTranslate(translation, pid)
      modifies `translation
      ensures Valid()
      ensures translation == Translated(old(translation), pid, tid)
      ensures id == ThreadLabel(old(translation), pid, tid)
    {
      if pid == 0 {
        id := " ";
        return;
      }
      ghost var before := translation;
      if pid !in translation {
        translation := translation[pid := ([Letter(|translation|)], map[])];
      }
      var threads := translation[pid].1;
      if tid !in threads {
        threads := threads[tid := NatToString(|threads|)];
        translation := translation[pid := (translation[pid].0, threads)];
      }
      assert translation == Translated(before, pid, tid);
      TranslatedValid(before, pid, tid);
      id := translation[pid].0 + translation[pid].1[tid];
    }

    method RegisterLogLevel(level: string)
      requires Valid()
      modifies `levelCheckbox
      ensures Valid()
      ensures levelCheckbox == RegisterLevel(old(levelCheckbox), level)
    {
      if level in levelCheckbox {
        return;
      }
      levelCheckbox := levelCheckbox[level := true];
    }

    method RegisterThreadId(id: string)
      requires Valid()
      modifies `threadFilters, `threadFiltersOrder
      ensures Valid()
      ensures threadFilters == RegisterThread(old(threadFilters), id)
      ensures threadFiltersOrder ==
                old(threadFiltersOrder) + (if ColumnKey(id) in old(threadFilters) then [] else [ColumnKey(id)])
    {
      var key := ColumnKey(id);
      ghost var before := threadFilters;
      if key !in threadFilters {
        threadFilters := threadFilters[key := map[]];
        threadFiltersOrder := threadFiltersOrder + [key];
      }
      var column := threadFilters[key];
      assert column == if key in before then before[key] else map[];
      if id in column {
        assert threadFilters == before[key := column];
        return;
      }
      threadFilters := threadFilters[key := column[id := true]];
      assert threadFilters == before[key := column[id := true]];
    }

    /** Parses a line, appends it with its thread label, and registers its
        level and its thread label. */
    method AddLine(text: string)
      requires Valid() && ParseFits(text)
      requires CanTranslate(translation, Parse(text).processId)
      modifies this
      ensures Valid()
      ensures Appended(old(lines), old(translation), old(levelCheckbox), old(threadFilters),
                       old(threadFiltersOrder), Parse(text))
      ensures translation.Keys == old(translation).Keys + (if Parse(text).processId == 0 then {} else {Parse(text).processId})
      ensures |lines| == old(|lines|) + 1 && lines == old(lines) + [lines[old(|lines|)]]
      ensures lines[old(|lines|)].(translatedThreadId := "") == Parse(text)
    {
      var p := Parse(text);
      TranslatedProcesses(translation, p.processId, p.threadId);
      var _ := Append(p);
    }

    /** The new state after `p` has been appended and registered. */
    ghost predicate Appended(lines0: seq<ParsedLine>, translation0: Translation, levels0: map<string, bool>,
                             filters0: map<int, map<string, bool>>, order0: seq<int>, p: ParsedLine)
      requires CanTranslate(translation0, p.processId)
      reads this
    {
      var tag := ThreadLabel(translation0, p.processId, p.threadId);
      && lines == lines0 + [p.(translatedThreadId := tag)]
      && translation == Translated(translation0, p.processId, p.threadId)
      && levelCheckbox == RegisterLevel(levels0, p.level)
      && threadFilters == RegisterThread(filters0, tag)
      && threadFiltersOrder == order0 + (if ColumnKey(tag) in filters0 then [] else [ColumnKey(tag)])
    }

    method Append(p: ParsedLine) returns (tag: string)
      requires Valid() && CanTranslate(translation, p.processId)
      modifies this
      ensures Valid()
      ensures tag == ThreadLabel(old(translation), p.processId, p.threadId)
      ensures lines == old(lines) + [p.(translatedThreadId := tag)]
      ensures translation == Translated(old(translation), p.processId, p.threadId)
      ensures levelCheckbox == RegisterLevel(old(levelCheckbox), p.level)
      ensures threadFilters == RegisterThread(old(threadFilters), tag)
      ensures threadFiltersOrder ==
                old(threadFiltersOrder) + (if ColumnKey(tag) in old(threadFilters) then [] else [ColumnKey(tag)])
    {
      tag := ComputeTranslatedThreadID(p.processId, p.threadId);
      RegisterLogLevel(p.level);
      RegisterThreadId(tag);
      lines := lines + [p.(translatedThreadId := tag)];
    }

    /** Drains the pending lines of the receiver, adding each in order. */
    method ReceivePending(pending: seq<string>)
      requires Valid()
      requires forall i :: 0 <= i < |pending| ==> ParseFits(pending[i])
      requires |translation.Keys + NewProcesses(ParseEach(pending))| <= MAX_PROCESSES
      modifies this
      ensures Valid()
      ensures |lines| == old(|lines|) + |pending| && lines[..old(|lines|)] == old(lines)
      ensures Untagged(lines[old(|lines|)..]) == ParseEach(pending)
    {
      ghost var before := lines;
      ghost var allowed := translation.Keys + NewProcesses(ParseEach(pending));
      var i := 0;
      while i < |pending|
        invariant 0 <= i <= |pending|
        invariant Valid()
        invariant translation.Keys <= allowed
        invariant |lines| == |before| + i && lines[..|before|] == before
        invariant Untagged(lines[|before|..]) == ParseEach(pending)[..i]
      {
        ghost var previous := lines;
        ghost var pid := ParseEach(pending)[i].processId;
        RoomFor(translation, allowed, pid);
        AddLine(pending[i]);
        UntaggedSnoc(previous[|before|..], lines[|previous|]);
        SliceSnoc(previous, lines[|previous|], |before|);
        PrefixSnoc(ParseEach(pending), i);
        PrefixOfSnoc(previous, lines[|previous|], |before|);
        i := i + 1;
      }
      assert ParseEach(pending)[..i] == ParseEach(pending);
    }

    /** The lines whose level is checked and whose thread label is checked
        in some column, in their order. */
    method Render() returns (shown: seq<ParsedLine>)
      requires Valid()
      ensures shown == Filter(lines, ShownBy(CheckedIn(levelCheckbox), CheckedThreads(threadFilters, threadFiltersOrder)))
    {
      var allowedLevel := CollectChecked(levelCheckbox);
      var allowedThread := CollectThreads(threadFilters, threadFiltersOrder);
      shown := KeepShown(lines, allowedLevel, allowedThread);
    }
  }

  /** The checked labels of every listed column, column by column. */
  method CollectThreads(filters: map<int, map<string, bool>>, order: seq<int>) returns (allowed: set<string>)
    requires forall k :: k in order ==> k in filters
    ensures allowed == CheckedThreads(filters, order)
  {
    allowed := {};
    var i := 0;
    while i < |order|
      invariant 0 <= i <= |order|
      invariant allowed == CheckedThreads(filters, order[..i])
    {
      assert order[..i + 1][..i] == order[..i];
      var key := order[i];
      assert key in filters;
      var column := CollectChecked(filters[key]);
      allowed := allowed + column;
      i := i + 1;
    }
    assert order[..i] == order;
  }

  /** The lines whose level and thread label are both allowed, in order. */
  method KeepShown(lines: seq<ParsedLine>, levels: set<string>, threads: set<string>) returns (shown: seq<ParsedLine>)
    ensures shown == Filter(lines, ShownBy(levels, threads))
  {
    shown := [];
    var i := 0;
    while i < |lines|
      invariant 0 <= i <= |lines|
      invariant shown == Filter(lines[..i], ShownBy(levels, threads))
    {
      assert lines[..i + 1][..i] == lines[..i];
      if lines[i].level in levels && lines[i].translatedThreadId in threads {
        shown := shown + [lines[i]];
      }
      i := i + 1;
    }
    assert lines[..i] == lines;
  }
}
