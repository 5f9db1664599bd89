# chrome-log-beautifier, modelled in Dafny

chrome-log-beautifier is a terminal viewer for Chromium log files and for the
topics fetched from a Diffusion server. This project models the viewer's
core and proves properties of the model. It also models the behaviour that
the vendored Diffusion C SDK headers promise, since they ship without
implementations.

**The viewer.**
- The log-line parser (`ParsedLine::Parse` and the older `ParseLine`). The
  regular expressions it uses are written as hand-rolled recognisers over
  strings, with ECMAScript `regex_match` semantics:
  - the whole line must match;
  - `\d` is ASCII digits and `\w` is ASCII letters, digits and `_`;
  - `.` excludes line terminators;
  - the greedy `.+` file group takes the longest prefix that lets the rest
    of the line match.
- The main view's bookkeeping (`MainComponent`), as a class over maps and
  sequences:
  - process/thread ids are translated into labels such as `A0`;
  - level and thread checkboxes are registered idempotently;
  - lines are filtered by checked level and thread.
- The topic list's selection cursor and rows (`LogDisplayer`).
- The first viewer (`MyComponent` in `src/main.cpp`): its level checkboxes,
  filter, column widths and type separators.
- The session singleton's topic bookkeeping (`src/data/session.cpp`):
  - the message-type names;
  - the shape of the random paths;
  - `Topic` construction;
  - the fetch callbacks;
  - the offline fetch.

**The SDK contracts.**
- The connection-response table and the message priorities/response types.
- The recovery buffer of sent messages.
- The hash map, hash set and linked list return-value contracts.
- The byte buffer.
- Session-ID comparison and the NULL-handle answers.
- The reconnection strategies.

All SDK structures are modelled by their abstract contents (a map, a set, a
sequence), not by their slot, chain or node layout.

Files:
- `wrappers.dfy`: Option.
- `text.dfy`: characters, decimal numbers, string order, filtering, maxima.
- `log_patterns.dfy`: the recognisers.
- `parsed_line.dfy`: `Parse`.
- `rows.dfy`: separator rows.
- `legacy_viewer.dfy`: `src/main.cpp`.
- `main_component.dfy`, `log_displayer.dfy`, `fetch_session.dfy`: the viewer.
- `common_types.dfy`, `recovery_buffer.dfy`, `hash_map.dfy`, `hash_set.dfy`,
  `linked_list.dfy`, `byte_buf.dfy`, `session_api.dfy`, `reconnect.dfy`: the
  SDK.

Where the code and its documentation differ, the model follows the code:
- `src/ui/log_displayer.hpp` declares `RenderLines` over parsed lines, but
  the definition in `src/ui/log_displayer.cpp` takes topics. The model
  follows the definition and gives the list by the topics' types.
- `NINJA` is a line type that `Parse` never produces.

## Model

| member | source | states |
|---|---|---|
| LogPatterns.MatchTail | src/parsed_line.cpp:9 | a match of `(.+)\((\d+)\)\] (.*)$` splits the rest into a well-formed file, digits and log whose layout is the input |
| LogPatterns.LongestSplit | src/parsed_line.cpp:9 | the chosen split point is one at which the remainder matches |
| LogPatterns.LastAcceptedMaximal | src/parsed_line.cpp:9 | no split point after the chosen one matches (greedy `.+`) |
| LogPatterns.TailComplete | src/parsed_line.cpp:9 | every well-formed file/line/log layout is matched, with a file at least as long as the given one |
| LogPatterns.MatchChrome | src/parsed_line.cpp:8-11 | a match of either Chrome pattern yields well-formed fields whose layout is exactly the line |
| LogPatterns.ChromeComplete | src/parsed_line.cpp:8-11 | every line laid out from well-formed fields matches, with the same leading fields and a file at least as long |
| LogPatterns.ChromeGreedy | src/parsed_line.cpp:9 | the matched file is at least as long as the file of any other reading of the same line |
| LogPatterns.FullShapeHasShortShape | src/parsed_line.cpp:33-37 | every line of the full pattern also matches the short pattern, which is why precedence matters |
| LogPatterns.MatchGtest | src/parsed_line.cpp:58-61 | a gtest match is `[` + 10 non-terminator characters + `] ` + rest, laid out exactly as the line |
| LogPatterns.GtestComplete | src/parsed_line.cpp:58-61 | every gtest layout is recognised with its own banner and rest |
| LogPatterns.GtestExcludesChrome | src/parsed_line.cpp:58-61 | a gtest line never matches a Chrome pattern, since its 12th character is `]` |
| Text.DecimalValueBound | src/parsed_line.cpp:14-21 | the value of `n` digits is below 10^n, so two-digit fields are at most 99 |
| Text.DecimalRoundTrip | src/ui/main_component.cpp:58-59 | reading back the decimal rendering of `n` gives `n` |
| Text.NatToStringInjective | src/ui/main_component.cpp:56-60 | different thread indices render differently |
| Text.InsertSortedKeepsSorted | src/main.cpp:112-115 | inserting into a strictly sorted sequence keeps it strictly sorted (the `std::set` of levels) |
| Text.StrLessTransitive | src/main.cpp:112-115 | the string order of `std::set<std::wstring>` is transitive |
| Text.StrLessTotal | src/main.cpp:112-115 | the string order is total on distinct strings |
| Text.StrLessIrreflexive | src/main.cpp:112-115 | the string order is irreflexive |
| Text.FilterMembers | src/main.cpp:138-142 | an element is kept iff it is in the input and passes the test |
| Text.FilterAll | src/main.cpp:138-142 | when every element passes, filtering changes nothing |
| Text.FilterConcat | src/main.cpp:138-142 | filtering distributes over concatenation (order is preserved) |
| Text.MaxFrom | src/main.cpp:144-147 | the running maximum is at least its start, bounds every element and is the start or some element |
| Wrappers.SomesMembers | src/main.cpp:234-238 | a value is kept iff some optional holds it |
| Wrappers.SomesConcat | src/main.cpp:234-238 | keeping the present values distributes over concatenation |
| ParsedLines.FromChrome | src/parsed_line.cpp:12-28 | the parsed line reads its numeric fields as the decimal values of the captures and its text fields as the captures |
| ParsedLines.Parse | src/parsed_line.cpp:5-76 | total: the type is LOG, GTEST or UNKNOWN (never NINJA); process, thread and millisecond values fit in `int` |
| ParsedLines.ParseLogSound | src/parsed_line.cpp:8-55 | a LOG result comes from one of the Chrome layouts of the line, with `unknown` non-empty iff it was the full pattern |
| ParsedLines.ParseFullPattern | src/parsed_line.cpp:8-29 | a full-pattern line gives LOG with a non-empty `unknown`: exactly the record read from the pattern's own match, whose numeric fields, `unknown` and `level` are the given reading's and whose file is at least as long (greedy) |
| ParsedLines.ParseShortPatternOnly | src/parsed_line.cpp:33-55 | a line matching only the short pattern gives LOG with an empty `unknown`: exactly the record read from the short pattern's own match, whose numeric fields and `level` are the given reading's and whose file is at least as long (greedy) |
| ParsedLines.ParseFileIsLongest | src/parsed_line.cpp:9-25 | the file of a LOG result is the longest file of any reading of the line |
| ParsedLines.ParseLogShape | src/parsed_line.cpp:8-55 | a LOG result's `line` is `(` + digits + `)`; month, day, hour, minute and seconds are in 0..99 |
| ParsedLines.ParseGtest | src/parsed_line.cpp:58-68 | a gtest line gives exactly the default record of type GTEST with level `GTEST` and log `[` + banner + `]`: every number 0, every other string empty |
| ParsedLines.ParseUnknown | src/parsed_line.cpp:72-75 | UNKNOWN iff no pattern matches, and then level `UNKNOWN` and log the whole line, other fields blank |
| Rows.SeparatedRowsShape | src/ui/log_displayer.cpp:57-64 | the rows are separators and items, end with the last item, and are empty iff there are no items |
| Rows.SeparatedItems | src/ui/log_displayer.cpp:57-64 | the items appear once each, in order |
| Rows.SeparatorPlacement | src/ui/log_displayer.cpp:57-64 | a separator comes right before an item iff its key differs from the previous key; every separator is followed by an item |
| LegacyViewer.ParseLine | src/main.cpp:58-103 | a result exists iff the full Chrome pattern or the gtest pattern matches; its type is 1 or 2 |
| LegacyViewer.ParseLineAgreesWithParse | src/main.cpp:58-103 | `ParseLine` succeeds exactly where `Parse` gives GTEST or full-pattern LOG, and then agrees with it |
| LegacyViewer.ParseLineLog | src/main.cpp:60-83 | a full-pattern line gives type 1 with the numeric fields, `unknown` and `level` of the given reading, and file, line and log from the pattern's own match, whose file is at least as long (greedy) |
| LegacyViewer.ParseLineGtest | src/main.cpp:86-99 | a gtest line gives type 2, level `GTEST`, log `[` + banner + `]` and nothing else |
| LegacyViewer.AcceptedMembers | src/main.cpp:234-238 | a line is kept iff some input parses to it |
| LegacyViewer.AcceptedConcat | src/main.cpp:234-238 | keeping parsed lines distributes over concatenation, so order is preserved |
| LegacyViewer.KeepParsed | src/main.cpp:234-238 | the loop keeps exactly the lines `ParseLine` accepts, in order |
| LegacyViewer.MyComponent.constructor | src/main.cpp:109-122 | one checkbox per distinct level, strictly sorted, all checked |
| LegacyViewer.MyComponent.Render | src/main.cpp:128-167 | the shown lines are those with a checked level, in order; the widths are their maximum level/file lengths (0 if none); a separator precedes each run of equal type, including the first |
| LegacyViewer.CollectChecked | src/main.cpp:133-137 | the allowed levels are the labels of checked boxes |
| LegacyViewer.KeepLevels | src/main.cpp:138-142 | the kept lines are exactly the lines with an allowed level, in order |
| LegacyViewer.WidestLevel | src/main.cpp:144-147 | the level width bounds every shown level and is 0 or attained |
| LegacyViewer.WidestFile | src/main.cpp:144-147 | the file width bounds every shown file and is 0 or attained |
| LegacyViewer.ColumnWidths | src/main.cpp:144-147 | the loop computes those maxima |
| LegacyViewer.TypeRows | src/main.cpp:160-167 | header, then a separator before each change of type from the initial -1 |
| MainComponents.Letter | src/ui/main_component.cpp:55 | the n-th process letter is `'A' + n` |
| MainComponents.Translated | src/ui/main_component.cpp:48-60 | after translating a non-zero pid, it and its tid are known |
| MainComponents.TranslatedProcesses | src/ui/main_component.cpp:49-55 | pid 0 leaves the processes unchanged; otherwise exactly the pid is added when new |
| MainComponents.ThreadsGrowValid | src/ui/main_component.cpp:56-60 | giving a new tid the index of the tids already known keeps indices `0..n-1`, distinct |
| MainComponents.TranslatedValid | src/ui/main_component.cpp:48-63 | letters stay distinct and `'A' + k`, thread indices stay `0..n-1` |
| MainComponents.TranslatedStable | src/ui/main_component.cpp:54-60 | existing letters and thread indices never change |
| MainComponents.TranslatedKnown | src/ui/main_component.cpp:54-63 | translating a known pair changes nothing |
| MainComponents.TranslatedFresh | src/ui/main_component.cpp:54-60 | a new pid gets letter `'A' + number of known pids` and label letter + `0`; a new tid gets the decimal count of known tids |
| MainComponents.LabelsDistinct | src/ui/main_component.cpp:61-63 | distinct known (pid, tid) pairs have distinct labels |
| MainComponents.RegisterLevel | src/ui/main_component.cpp:66-73 | the level set gains exactly the level |
| MainComponents.RegisterLevelStates | src/ui/main_component.cpp:66-73 | existing states are untouched; a new level starts checked |
| MainComponents.RegisterLevelIdempotent | src/ui/main_component.cpp:66-70 | registering twice is registering once |
| MainComponents.RegisterThread | src/ui/main_component.cpp:75-82 | the columns gain exactly the id's column key |
| MainComponents.RegisterThreadStates | src/ui/main_component.cpp:75-89 | other columns and existing boxes are untouched; the id is in its column, checked when new |
| MainComponents.RegisterThreadIdempotent | src/ui/main_component.cpp:75-89 | registering twice is registering once |
| MainComponents.CheckedThreadsMembers | src/ui/main_component.cpp:99-104 | an id is allowed iff it is checked in some listed column |
| MainComponents.CollectChecked | src/ui/main_component.cpp:95-98 | the allowed levels are the checked ones |
| MainComponents.UntaggedSnoc | src/ui/main_component.cpp:39-40 | clearing distributes over appending a line |
| MainComponents.MainComponent.constructor | src/ui/main_component.cpp:10-28 | empty lines, translation, checkboxes and columns |
| MainComponents.MainComponent.ComputeTranslatedThreadID | src/ui/main_component.cpp:48-64 | the translation is updated as `Translated` and the id is `" "` for pid 0 or letter + index |
| MainComponents.MainComponent.RegisterLogLevel | src/ui/main_component.cpp:66-73 | the checkboxes become `RegisterLevel` of the old ones |
| MainComponents.MainComponent.RegisterThreadId | src/ui/main_component.cpp:75-89 | the columns become `RegisterThread`; a new column key is appended to the order once |
| MainComponents.MainComponent.Append | src/ui/main_component.cpp:39-46 | appends exactly the line with its label, then translates and registers level and thread |
| MainComponents.MainComponent.AddLine | src/ui/main_component.cpp:39-46 | appends exactly one line, the parsed text tagged with its label, and registers it |
| MainComponents.MainComponent.ReceivePending | src/ui/main_component.cpp:30-35 | the whole batch of pending lines is added, each parsed, in order; earlier lines stay; the only limit is on distinct new processes, not on lines |
| MainComponents.MainComponent.Render | src/ui/main_component.cpp:91-113 | the shown lines are those with a checked level and a thread checked in some column, in order |
| MainComponents.CollectThreads | src/ui/main_component.cpp:99-104 | the loop collects exactly `CheckedThreads` |
| MainComponents.KeepShown | src/ui/main_component.cpp:105-113 | the loop keeps exactly the lines passing both filters, in order |
| LogDisplayers.CppRem | src/ui/log_displayer.cpp:140-143 | C++ remainder: for non-negative dividends it is the mathematical one, below the divisor |
| LogDisplayers.Moved | src/ui/log_displayer.cpp:136-150 | keys other than Tab move the cursor by at most 10; Tab and TabReverse keep an in-range cursor in range and do nothing on an empty list |
| LogDisplayers.Clamp | src/ui/log_displayer.cpp:152 | the clamped cursor is in `0..max(0,size-1)`; a cursor in range stays; below 0 it becomes 0, past the end the last item |
| LogDisplayers.ClampInRange | src/ui/log_displayer.cpp:152 | clamping gives 0 for size ≤ 1, is idempotent and keeps the order of two cursors |
| LogDisplayers.ArrowsMoveByOne | src/ui/log_displayer.cpp:136-139 | up/`k` moves by -1 and down/`j` by +1, stopping at the ends |
| LogDisplayers.PagesMoveByTen | src/ui/log_displayer.cpp:144-150 | page keys move by 10, stopping at the ends |
| LogDisplayers.TabWraps | src/ui/log_displayer.cpp:140-143 | Tab goes to the next item and wraps from last to first; TabReverse the reverse |
| LogDisplayers.TabRoundTrip | src/ui/log_displayer.cpp:140-143 | TabReverse undoes Tab and vice versa |
| LogDisplayers.EmptyListStays | src/ui/log_displayer.cpp:140-152 | with no items Tab/TabReverse are no-ops and every event leaves the cursor at 0 |
| LogDisplayers.OtherKeysIgnored | src/ui/log_displayer.cpp:136-152 | any other key leaves an in-range cursor where it is |
| LogDisplayers.FirstRowIsItem | src/ui/log_displayer.cpp:57-64 | with the first type as the starting key, the rows start with the first item |
| LogDisplayers.ListSeparators | src/ui/log_displayer.cpp:57-64 | each item once in order, first row an item, a separator before item i iff i>0 and its type differs from item i-1 |
| LogDisplayers.EmptyListRows | src/ui/log_displayer.cpp:120-121 | an empty list is the single `(empty)` row |
| LogDisplayers.LogDisplayer.constructor | src/ui/log_displayer.hpp:12-19 | cursor and size start at 0 |
| LogDisplayers.LogDisplayer.OnEvent | src/ui/log_displayer.cpp:130-161 | unfocused: false and unchanged; focused: the clamped move; true iff the cursor changed; the cursor stays in range |
| LogDisplayers.TypeColumnWidth | src/ui/log_displayer.cpp:38-44 | the loop gives the maximum type length, at least 5 |
| LogDisplayers.BuildRows | src/ui/log_displayer.cpp:57-121 | the loop builds exactly `ListRows`: each item once in order, a separator at each change of type, `(empty)` for no items |
| LogDisplayers.LogDisplayer.RenderLines | src/ui/log_displayer.cpp:31-121 | the cursor resets to 0 iff the count changed; the size is the count; width is max(5, longest type); the rows are `ListRows` |
| FetchSessions.TopicTypeNamesFollowDeclarations | src/data/session.cpp:22-66 | each of the 20 listed types maps to its name, except PING_CLIENT → "" and TOPIC_STATUS_NOTIFICATION → "STATUS_NOTIFICATION" |
| FetchSessions.UnknownTypes | src/data/session.cpp:64-65 | the name is `???` iff the type is not among the 20 |
| FetchSessions.TopicTypeNamesDistinct | src/data/session.cpp:22-66 | two types with the same known name are the same type |
| FetchSessions.AlphabetIsAlphaNum | src/data/session.cpp:70-73 | the alphabet has 62 characters, all alphanumeric, and contains every alphanumeric character |
| FetchSessions.RandomStringShape | src/data/session.cpp:69-82 | a random string has exactly `len` characters, each alphanumeric |
| FetchSessions.GenRandom | src/data/session.cpp:69-82 | the loop builds exactly `RandomString` |
| FetchSessions.MakeTopic | src/data/session.cpp:85-90 | type and path copied; buffer = the first `len` bytes at `ptr`, or empty for null |
| FetchSessions.OfflineTopicsShape | src/data/session.cpp:288-291 | ten TOPIC_LOAD topics with 40-character alphanumeric paths and empty buffers |
| FetchSessions.Session.constructor | src/data/session.cpp:215-220 | no topics, no session, no callbacks |
| FetchSessions.Session.SetFetchCompletedCallback | src/data/session.cpp:314-316 | installs or clears the completion callback |
| FetchSessions.Session.SetFetchErrorCallback | src/data/session.cpp:318-320 | installs or clears the error callback |
| FetchSessions.Session.OnFetchTopic | src/data/session.cpp:296-299 | appends exactly one topic; earlier topics unchanged |
| FetchSessions.Session.OnFetchError | src/data/session.cpp:301-306 | the error callback is called iff set |
| FetchSessions.Session.OnFetchCompleted | src/data/session.cpp:308-312 | the completion callback is called iff set |
| FetchSessions.Session.Fetch | src/data/session.cpp:272-294 | online: only the selector changes; offline: the ten offline topics are appended, then completion if set |
| FetchSessions.Session.OnFetch | src/data/session.cpp:125-130 | a COMPL topic for the selector, completion, success |
| FetchSessions.Session.OnTopic | src/data/session.cpp:132-142 | a topic named by the type with the message's name and payload; missing message ignored; success either way |
| FetchSessions.Session.OnFetchErrorHandler | src/data/session.cpp:144-154 | no error: failure, nothing changes; else an ERROR topic with the message, the callback given code and message, success |
| FetchSessions.Session.OnFetchStatusMessage | src/data/session.cpp:156-163 | a FETCHSTAT topic with path selector + status path |
| FetchSessions.Session.OnFetchDiscard | src/data/session.cpp:165-170 | a DISK topic for the selector |
| ConnectionResponses.PriorityNumbering | diffusion/include/types/common_types.h:54-59 | IMMEDIATE=0 … LOW=3, a round trip, in order, and only 0..3 are priorities |
| ConnectionResponses.ResponseTypeNumbering | diffusion/include/types/common_types.h:90-95 | SUCCESS=0 … FATAL_AUTHENTICATION=3, a round trip, only 0..3 |
| ConnectionResponses.Terminator | diffusion/include/types/common_types.h:202-203 | the first entry without a description, every earlier one having one |
| ConnectionResponses.Scan | diffusion/include/types/common_types.h:123-204 | finds the first entry with the code before the terminator, or reports none there |
| ConnectionResponses.EntryFacts | diffusion/include/types/common_types.h:124-201 | each of the 13 entries: described, ascending codes, its type and its error code |
| ConnectionResponses.CodesIncrease | diffusion/include/types/common_types.h:124-201 | codes strictly increase, so they are pairwise distinct |
| ConnectionResponses.TableShape | diffusion/include/types/common_types.h:123-204 | 13 entries then the NULL-description terminator, which a scan stops at |
| ConnectionResponses.Lookup | diffusion/include/types/common_types.h:123-204 | a found entry has the code asked for and a description, and is one of the entries before the terminator |
| ConnectionResponses.LookupFinds | diffusion/include/types/common_types.h:123-204 | a lookup succeeds iff one of the 13 entries has the code, and returns that entry |
| ConnectionResponses.KnownCodes | diffusion/include/types/common_types.h:100-114 | the codes found are exactly the 13 response codes |
| ConnectionResponses.SuccessResponses | diffusion/include/types/common_types.h:124-147 | SUCCESS iff 100, 105 or 106, iff DIFF_ERR_SUCCESS |
| ConnectionResponses.AuthenticationResponses | diffusion/include/types/common_types.h:148-183 | FATAL_AUTHENTICATION iff 111 or 116, with their error codes |
| ConnectionResponses.RetriableResponses | diffusion/include/types/common_types.h:196-201 | RETRIABLE iff 127, with DIFF_ERR_CONNECTION_ERROR_UNDEFINED |
| ConnectionResponses.FatalResponses | diffusion/include/types/common_types.h:130-195 | FATAL iff 102, 112–115, 117 or 118 |
| ConnectionResponses.ErrorsDistinct | diffusion/include/types/common_types.h:124-201 | a non-success error code identifies its response code |
| RecoveryBuffers.Window | diffusion/include/internal/recovery_buffer_int.h:35-39 | the last n entries, or all when fewer |
| RecoveryBuffers.WindowSnoc | diffusion/include/internal/recovery_buffer_int.h:35-39 | evicting before each append is evicting once at the end |
| RecoveryBuffers.PutsKeepNewest | diffusion/include/internal/recovery_buffer_int.h:35-39 | after any puts into a fresh buffer it holds the newest max-size messages, numbered by put order |
| RecoveryBuffers.NumberedSnoc | diffusion/include/internal/recovery_buffer_int.h:11-14 | numbering distributes over one more put |
| RecoveryBuffers.PutsWindow | diffusion/include/internal/recovery_buffer_int.h:68-72 | after M puts it holds min(M, N) entries, newest numbered M, oldest M - min(M, N) + 1 |
| RecoveryBuffers.FourIntoThree | diffusion/include/internal/recovery_buffer_int.h:35-39 | size 3, puts 1..4: holds 2, 3, 4 numbered 2..4 |
| RecoveryBuffers.RecoveryBuffer.constructor | diffusion/include/internal/recovery_buffer_int.h:24-28 | empty, counter 0, the default maximum |
| RecoveryBuffers.RecoveryBuffer.Put | diffusion/include/internal/recovery_buffer_int.h:35-39 | the counter advances; the entry numbered by it is appended after evicting the oldest when full; never over the maximum |
| RecoveryBuffers.RecoveryBuffer.Get | diffusion/include/internal/recovery_buffer_int.h:41-46 | empty: nothing and unchanged; else returns and removes the oldest with its number |
| RecoveryBuffers.RecoveryBuffer.Peek | diffusion/include/internal/recovery_buffer_int.h:48-53 | the entry `offset` after the oldest, numbered oldest + offset, or nothing |
| RecoveryBuffers.RecoveryBuffer.CountEntries | diffusion/include/internal/recovery_buffer_int.h:68-72 | the number of entries, never above the maximum |
| RecoveryBuffers.RecoveryBuffer.Clear | diffusion/include/internal/recovery_buffer_int.h:55-59 | no entries; the counter kept |
| RecoveryBuffers.RecoveryBuffer.Reset | diffusion/include/internal/recovery_buffer_int.h:61-66 | no entries, counter 0, the maximum kept |
| RecoveryBuffers.RecoveryBuffer.SetSize | diffusion/include/internal/recovery_buffer_int.h:74-78 | the new maximum; shrinking keeps the newest entries |
| RecoveryBuffers.RecoveryBuffer.OldestSeq | diffusion/include/internal/recovery_buffer_int.h:80-83 | the first entry's number, counter - count + 1 |
| RecoveryBuffers.RecoveryBuffer.NewestSeq | diffusion/include/internal/recovery_buffer_int.h:85-88 | the last entry's number, which is the counter |
| HashMaps.ListElements | diffusion/include/hash.h:139-149 | every element exactly once |
| HashMaps.HashMap.constructor | diffusion/include/hash.h:55-64 | an empty map |
| HashMaps.HashMap.Add | diffusion/include/hash.h:104-117 | stores the value; a present key returns the old value and the keys stay; an absent key returns nothing and is added |
| HashMaps.HashMap.Del | diffusion/include/hash.h:119-127 | removes the key, returning its value or nothing; afterwards it is absent |
| HashMaps.HashMap.Get | diffusion/include/hash.h:129-137 | the stored value iff the key is present; reads only |
| HashMaps.HashMap.Keys | diffusion/include/hash.h:139-149 | exactly the present keys, once each |
| HashMaps.HashMap.Clear | diffusion/include/hash.h:77-89 | empty, still usable |
| HashMaps.HashMap.Dup | diffusion/include/hash.h:151-160 | a new map with the same keys and duplicated values |
| HashMaps.DupStrval | diffusion/include/hash.h:162-168 | a new map equal to the source |
| HashMaps.AddThenDel | diffusion/include/hash.h:104-127 | on a map without the key, `hash_add` reports no previous value, `hash_del` then returns the added value, and the map and its size are as before |
| HashSets.HashSet.constructor | diffusion/include/set.h:68-77 | an empty set |
| HashSets.HashSet.Add | diffusion/include/set.h:109-120 | an existing value is returned and the set is unchanged; a new one is added and nothing returned |
| HashSets.HashSet.Del | diffusion/include/set.h:122-131 | removes the value, returning it or nothing; afterwards absent |
| HashSets.HashSet.Contains | diffusion/include/set.h:133-141 | the value iff a member; reads only |
| HashSets.HashSet.Values | diffusion/include/set.h:143-152 | exactly the members, once each |
| HashSets.HashSet.Dup | diffusion/include/set.h:154-160 | a new set with the same members |
| HashSets.AddTwice | diffusion/include/set.h:109-120 | after two `set_add` calls of one value the second returns it, the first returns it iff it was a member, and the set gained exactly that value |
| LinkedLists.InsertAt | diffusion/include/list.h:68-84 | the new element at position i, earlier elements in place, later ones shifted by one |
| LinkedLists.InsertAtEnds | diffusion/include/list.h:68-100 | inserting at 0 is prepending, at the end appending, and removing the new element restores the list |
| LinkedLists.LinkedList.constructor | diffusion/include/list.h:42-47 | an empty list |
| LinkedLists.LinkedList.Insert | diffusion/include/list.h:68-75 | the data immediately before the node `where` |
| LinkedLists.LinkedList.Append | diffusion/include/list.h:77-84 | the data immediately after the node `where` |
| LinkedLists.LinkedList.InsertFirst | diffusion/include/list.h:86-92 | the data becomes the first element |
| LinkedLists.LinkedList.AppendLast | diffusion/include/list.h:94-100 | the data becomes the last element |
| LinkedLists.LinkedList.GetDataFirst | diffusion/include/list.h:102-109 | the first data, or nothing iff empty |
| LinkedLists.LinkedList.GetDataLast | diffusion/include/list.h:111-118 | the last data, or nothing iff empty |
| LinkedLists.LinkedList.GetDataIndexed | diffusion/include/list.h:120-129 | element `index`, or nothing iff out of range; index 0 is the first and the last index the last |
| LinkedLists.LinkedList.AppendList | diffusion/include/list.h:131-138 | dst becomes dst ++ src; a distinct src is unchanged |
| LinkedLists.LinkedList.Dup | diffusion/include/list.h:49-57 | a new list of the copied data in the same order |
| ByteBufs.CStringLength | diffusion/include/buf.h:235-247 | the index of the first NUL, or the length |
| ByteBufs.AsString | diffusion/include/buf.h:235-247 | the bytes followed by a NUL, embedded NULs kept |
| ByteBufs.AsStringCLength | diffusion/include/buf.h:238-239 | as a C string the result is the whole buffer iff it has no NUL |
| ByteBufs.ReadByte | diffusion/include/buf.h:159-167 | the byte at the position and the position after it |
| ByteBufs.ReadFixed | diffusion/include/buf.h:169-187 | `width` bytes from the position and the position after them |
| ByteBufs.ReadUint32 | diffusion/include/buf.h:169-177 | four bytes; the position advances by 4 |
| ByteBufs.ReadUint64 | diffusion/include/buf.h:179-187 | eight bytes; the position advances by 8 |
| ByteBufs.ReadsFollowWrites | diffusion/include/buf.h:159-187 | a byte, a uint32 and a uint64 read back in order, ending at the end |
| ByteBufs.DiscardWritten | diffusion/include/buf.h:249-259 | after writing two runs of bytes to a buffer, discarding its old contents and the first run leaves exactly the second run |
| ByteBufs.Buf.constructor | diffusion/include/buf.h:40-46 | an empty buffer |
| ByteBufs.Buf.WriteByte | diffusion/include/buf.h:124-130 | appends exactly one byte |
| ByteBufs.Buf.WriteBytes | diffusion/include/buf.h:132-139 | appends exactly the first `len` bytes |
| ByteBufs.Buf.WriteBuf | diffusion/include/buf.h:141-147 | dst becomes dst ++ src; a distinct src is unchanged |
| ByteBufs.Buf.Dup | diffusion/include/buf.h:63-70 | a new buffer with identical contents |
| ByteBufs.Buf.DiscardFront | diffusion/include/buf.h:249-259 | exactly the bytes after the first n remain |
| SessionApi.StateOf | diffusion/include/types/session_types.h:48-78 | a state is found only for its own C value |
| SessionApi.StateNumbering | diffusion/include/types/session_types.h:48-78 | the states are numbered -1..7, a round trip |
| SessionApi.SessionIdCmp | diffusion/include/session.h:284-295 | 0 iff the IDs are equal; 1 iff only the server instances are equal; -1 iff they differ |
| SessionApi.SessionIdCmpSymmetric | diffusion/include/session.h:284-295 | the comparison is symmetric and reflexive |
| SessionApi.IdToString | diffusion/include/session.h:246-259 | NULL for a NULL ID |
| SessionApi.IdFromString | diffusion/include/session.h:261-272 | NULL for a NULL string |
| SessionApi.Session.SetMaximumOutboundQueueSize | diffusion/include/session.h:314-332 | returns the previous capacity and installs the new one; -1 is unbounded |
| SessionApi.StateGet | diffusion/include/session.h:178-189 | UNKNOWN for a NULL handle, else the state |
| SessionApi.IsConnected | diffusion/include/session.h:211-221 | FALSE for NULL; else true iff in a CONNECTED state |
| SessionApi.IsRecovering | diffusion/include/session.h:223-233 | FALSE for NULL; else true iff in a RECOVERING state |
| SessionApi.IsClosed | diffusion/include/session.h:235-244 | TRUE for NULL; else true iff in a CLOSED state |
| SessionApi.StatusesExclusive | diffusion/include/session.h:211-244 | at most one of connected, recovering and closed holds |
| Reconnects.DefaultRetryCount | diffusion/include/types/session_types.h:33-40 | the default count is 60000 / 5000 = 12 and fills the default timeout |
| Reconnects.RepeatingTimeout | diffusion/include/reconnect.h:37-44 | retries with delay 0 get the default timeout; otherwise count × delay; no retries, no time |
| Reconnects.DefaultsAgree | diffusion/include/types/session_types.h:33-40 | the default count at the default delay, or at delay 0, gives the default timeout |
| Reconnects.RepeatingAttemptCount | diffusion/include/reconnect.h:37-38 | a repeating strategy starts exactly `retry_count` attempts (none for 0) and never after an abort |
| Reconnects.ReconnectionStrategy.RepeatingAttempt | diffusion/include/reconnect.h:30-54 | counts and delay stored, derived timeout, not overridden, no cascade URLs |
| Reconnects.ReconnectionStrategy.UserFunctionStrategy | diffusion/include/reconnect.h:56-86 | a user-function strategy, no cascade URLs |
| Reconnects.ReconnectionStrategy.Decide | diffusion/include/reconnect.h:28-65 | user function: attempts iff the callback answers START; repeating: starts iff fewer than `retry_count` attempts were made |
| Reconnects.ReconnectionStrategy.SetTimeout | diffusion/include/reconnect.h:102-122 | the explicit timeout replaces the derived one; with 0 only the cascade URLs are tried, otherwise the initial URL first and then the cascade URLs |
| Reconnects.ReconnectionStrategy.SetCascadeUrls | diffusion/include/reconnect.h:124-137 | the given URLs in order; none for NULL |
| Reconnects.ReconnectionStrategy.CandidateUrls | diffusion/include/reconnect.h:127-134 | the initial URL first, then the cascade URLs in order |
| Reconnects.ReconnectionStrategy.UrlsTried | diffusion/include/reconnect.h:109-111 | the initial URL is tried iff the timeout is non-zero or it is a cascade URL; the cascade URLs are always tried, all of them, in order, after it |
| Reconnects.ZeroTimeoutCascadesOnly | diffusion/include/reconnect.h:109-111 | after `SetTimeout(0)` the same server is not tried unless listed for cascading, and the cascade list is tried unchanged |

## Left out

- Rendering with ftxui is left out because it is UI and floating point: element trees, decorators, colours, windows, frames, the gauge, the spinner counter, and the hexdump of the focused topic.
- File reading and the screen loop in `main` are left out (I/O).
- The `Receiver` channel and the `std::mutex` in `onFetchTopic` are left out (threads). `ReceivePending` models only "each pending line is added in order".
- ParsedLines.Parse: `std::stoi` overflow is not modelled. The process id, thread id and millisecond groups of the selected pattern must fit in `int` (a `requires`). The two-digit groups always fit. The same applies to LegacyViewer.ParseLine.
- MainComponents.MainComponent.ReceivePending: requires the processes already translated plus the distinct non-zero process ids of the batch to fit the letters (see the next line). Any number of lines is accepted.
- MainComponents.Letter: process letters are limited to `0xD800 - 65` processes, because later values of `'A' + n` are UTF-16 surrogates, which are not Dafny characters. The C++ code goes on past that and wraps `wchar_t`.
- Regular expressions are modelled for the C locale only. Locale-dependent `\w` and `\d` are not modelled.
- Session::connect, the SDK branch of `fetch` (which calls `::fetch`), session creation, closing and freeing, and credentials are left out: they are foreign SDK calls. `connected` stands for a live session.
- The values `rand()` returns are a parameter `rand(start + n)`, because they come from a foreign random number generator.
- FetchSessions.GenRandom: `len` is a `nat`. A negative length makes `reserve` throw, and that case is not modelled.
- The callbacks stored by the session are represented by whether each is set. Their calls are recorded as a sequence of notices.
- `Session::getSession()` is a singleton. The `context` passed to the callbacks is taken to be that singleton.
- The packed-integer, IEEE-754, string and length-prefix encodings of `buf.h`, and `buf_sprintf`, are not part of this model: the byte layout is not defined.
- ByteBufs.ReadUint32: the byte order of the integer read is not modelled; the model returns the raw bytes. The same applies to ByteBufs.ReadUint64.
- ByteBufs.Buf.DiscardFront: requires `0 <= n <= len`. The header does not describe other counts.
- RecoveryBuffers.RecoveryBuffer.Put: the C sequence counter is an `int`, and its overflow is not modelled.
- RecoveryBuffers.RecoveryBuffer.constructor: requires a default size of at least 1. The header does not say what a smaller size does. RecoveryBuffers.RecoveryBuffer.SetSize has the same requirement for the same reason.
- RecoveryBuffers.RecoveryBuffer.OldestSeq: requires a non-empty buffer, because the header does not say what an empty buffer returns. RecoveryBuffers.RecoveryBuffer.NewestSeq has the same requirement.
- RecoveryBuffers.RecoveryBuffer.Peek: an offset outside the buffer returns nothing. The header states this only for an empty buffer.
- Freeing functions (`hash_free`, `set_free`, `list_free`, `buf_free`, `recovery_buffer_free`, `session_id_free`) are not modelled, and neither are the key and value free hooks, because memory is not modelled. `session_id_free(NULL)` has no effect, so there is nothing to model.
- Hash slots, chains, the hash function and the mutex are not modelled. Neither are the set's duplicate, free, hash and compare hooks: set membership is equality.
- `hash_add` in the C code reuses the existing key on replace. The model does not distinguish equal keys.
- LinkedLists.LinkedList.Insert: `where` is taken to be the position of a node of the list. A NULL node is not described and is not modelled. The same applies to LinkedLists.LinkedList.Append.
- LinkedLists.LinkedList.AppendList: `list_append_list` shares src's nodes with dst. The aliasing is not modelled: only the resulting contents are.
- SessionApi.IdToString: the textual form of a session ID is not shown, so it is a parameter. SessionApi.IdFromString parses by a parameter for the same reason.
- SessionApi.IsConnected: for a non-NULL session, connected, recovering and closed are read from the state names (CONNECTED_*, RECOVERING_*, CLOSED_*). The header does not spell this out. SessionApi.IsRecovering and SessionApi.IsClosed are read the same way.
- SessionApi.Session.SetMaximumOutboundQueueSize: requires a size of at least -1, since other negative sizes are not described. Blocking on a full queue is not modelled.
- Reconnects.RepeatingTimeout: the garbled sentence at reconnect.h:40-41 is read as "a retry_count greater than 0 and a retry_delay of 0".
- Reconnects.ReconnectionStrategy.Decide: the repeating rule (start while `retries_done < retry_count`) is inferred from `reconnection_args_repeating`, since its body is not shown. The `RECONNECTION_STRATEGY_TYPE_T` value each factory sets, the success, failure and cascade callbacks, and which cascade URL is current are not modelled. The reconnection timeout is a server-side limit, so `Decide` does not read it; its effect is stated by `UrlsTried`.
- `session_connection_response_code`, `session_state_as_string` and `set_global_topic_handler` are not modelled: they are declarations without a stated behaviour beyond returning a stored value.
