/** The fetch side of the viewer's session: the names shown for message
    types, the random topic paths of the offline mode, the `Topic` record,
    and how the fetch callbacks append topics to the session singleton and
    forward completion and errors to the callbacks the viewer installed. */
module FetchSessions {
  import opened Wrappers
  import opened ByteBufs
  import opened Text

  // ---------------------------------------------------------------------
  // Message type names.
  // ---------------------------------------------------------------------

  /** The message types declared by the SDK: code and enumerator name, the
      common prefix `MESSAGE_TYPE_` left off. */
  const MESSAGE_TYPES: seq<(int, string)> := [
    (0x00, "UNDEFINED"),
    (0x14, "TOPIC_LOAD"),
    (0x15, "DELTA"),
    (0x16, "SUBSCRIBE"),
    (0x17, "UNSUBSCRIBE"),
    (0x18, "PING_SERVER"),
    (0x19, "PING_CLIENT"),
    (0x1a, "CREDENTIALS"),
    (0x1b, "CREDENTIALS_REJECTED"),
    (0x1c, "ABORT_NOTIFICATION"),
    (0x1d, "CLOSE_REQUEST"),
    (0x1e, "TOPIC_LOAD_ACK_REQD"),
    (0x1f, "DELTA_ACK_REQD"),
    (0x20, "ACK"),
    (0x21, "FETCH"),
    (0x22, "FETCH_REPLY"),
    (0x23, "TOPIC_STATUS_NOTIFICATION"),
    (0x24, "COMMAND_MESSAGE"),
    (0x28, "COMMAND_TOPIC_LOAD"),
    (0x29, "COMMAND_TOPIC_NOTIFICATION")
  ]

  /** The name the viewer shows for a message type. */
  function TopicTypeName(mt: int): string {
    match mt
    case 0x00 => "UNDEFINED"
    case 0x14 => "TOPIC_LOAD"
    case 0x15 => "DELTA"
    case 0x16 => "SUBSCRIBE"
    case 0x17 => "UNSUBSCRIBE"
    case 0x18 => "PING_SERVER"
    case 0x19 => ""
    case 0x1a => "CREDENTIALS"
    case 0x1b => "CREDENTIALS_REJECTED"
    case 0x1c => "ABORT_NOTIFICATION"
    case 0x1d => "CLOSE_REQUEST"
    case 0x1e => "TOPIC_LOAD_ACK_REQD"
    case 0x1f => "DELTA_ACK_REQD"
    case 0x20 => "ACK"
    case 0x21 => "FETCH"
    case 0x22 => "FETCH_REPLY"
    case 0x23 => "STATUS_NOTIFICATION"
    case 0x24 => "COMMAND_MESSAGE"
    case 0x28 => "COMMAND_TOPIC_LOAD"
    case 0x29 => "COMMAND_TOPIC_NOTIFICATION"
    case _ => "???"
  }

  /** The name a declared type is expected to show: its enumerator name
      without the prefix, except PING_CLIENT (empty) and
      TOPIC_STATUS_NOTIFICATION (shown without "TOPIC_"). */
  function DeclaredName(code: int, name: string): string {
    if code == 0x19 then ""
    else if code == 0x23 then "STATUS_NOTIFICATION"
    else name
  }

  /** Every declared type shows its enumerator name without the prefix, with
      the two exceptions, and never "???". */
  lemma TopicTypeNamesFollowDeclarations(i: nat)
    requires i < |MESSAGE_TYPES|
    ensures TopicTypeName(MESSAGE_TYPES[i].0) == DeclaredName(MESSAGE_TYPES[i].0, MESSAGE_TYPES[i].1)
    ensures TopicTypeName(MESSAGE_TYPES[i].0) != "???"
  {
    if i < 10 {
      LowerTypeNames(i);
    } else {
      UpperTypeNames(i);
    }
  }

  /** The first ten declared types, one by one. */
  lemma LowerTypeNames(i: nat)
    requires i < 10
    ensures TopicTypeName(MESSAGE_TYPES[i].0) == DeclaredName(MESSAGE_TYPES[i].0, MESSAGE_TYPES[i].1)
  {
    if i == 0 {} else if i == 1 {} else if i == 2 {} else if i == 3 {} else if i == 4 {}
    else if i == 5 {} else if i == 6 {} else if i == 7 {} else if i == 8 {} else {}
  }

  /** The other declared types, one by one. */
  lemma UpperTypeNames(i: nat)
    requires 10 <= i < |MESSAGE_TYPES|
    ensures TopicTypeName(MESSAGE_TYPES[i].0) == DeclaredName(MESSAGE_TYPES[i].0, MESSAGE_TYPES[i].1)
  {
    if i == 10 {} else if i == 11 {} else if i == 12 {} else if i == 13 {} else if i == 14 {}
    else if i == 15 {} else if i == 16 {} else if i == 17 {} else if i == 18 {} else {}
  }

  /** A code shows "???" exactly when no type with that code is declared. */
  lemma UnknownTypes(mt: int)
    ensures TopicTypeName(mt) == "???" <==> forall i :: 0 <= i < |MESSAGE_TYPES| ==> MESSAGE_TYPES[i].0 != mt
  {
    if TopicTypeName(mt) == "???" {
      forall i | 0 <= i < |MESSAGE_TYPES|
        ensures MESSAGE_TYPES[i].0 != mt
      {
        TopicTypeNamesFollowDeclarations(i);
      }
    } else {
      var k := match mt
        case 0x00 => 0 case 0x14 => 1 case 0x15 => 2 case 0x16 => 3 case 0x17 => 4
        case 0x18 => 5 case 0x19 => 6 case 0x1a => 7 case 0x1b => 8 case 0x1c => 9
        case 0x1d => 10 case 0x1e => 11 case 0x1f => 12 case 0x20 => 13 case 0x21 => 14
        case 0x22 => 15 case 0x23 => 16 case 0x24 => 17 case 0x28 => 18 case _ => 19;
      assert MESSAGE_TYPES[k].0 == mt;
    }
  }

  /** Different types never show the same name, unless both are undeclared. */
  lemma TopicTypeNamesDistinct(a: int, b: int)
    requires TopicTypeName(a) == TopicTypeName(b) && TopicTypeName(a) != "???"
    ensures a == b
  {
  }

  // ---------------------------------------------------------------------
  // Random topic paths.
  // ---------------------------------------------------------------------

  /** The characters random paths are drawn from. */
  const ALPHANUM: string := CharRun('0', 10) + CharRun('A', 26) + CharRun('a', 26)

  /** The `n` consecutive characters starting at `first`. */
  function CharRun(first: char, n: nat): (s: string)
    requires first as int + n <= 0x80
    ensures |s| == n && forall i :: 0 <= i < n ==> s[i] as int == first as int + i
  {
    seq(n, i requires 0 <= i < n => (first as int + i) as char)
  }

  predicate IsAlphaNum(c: char) {
    ('0' <= c <= '9') || ('A' <= c <= 'Z') || ('a' <= c <= 'z')
  }

  /** The string `gen_random` builds, where `rand(n)` is what the `n`-th call
      of `rand()` returns and `start` calls were made before: its `j`-th
      character is the one the `j`-th call selects. */
  function RandomString(len: nat, rand: nat -> nat, start: nat): (s: string) {
    seq(len, j requires 0 <= j < len => ALPHANUM[rand(start + j) % |ALPHANUM|])
  }

  /** A random string has the requested length and only alphanumeric
      characters. */
  lemma RandomStringShape(len: nat, rand: nat -> nat, start: nat)
    ensures |RandomString(len, rand, start)| == len
    ensures forall j :: 0 <= j < len ==> IsAlphaNum(RandomString(len, rand, start)[j])
  {
    AlphabetIsAlphaNum();
  }

  /** The alphabet holds exactly the 62 alphanumeric characters. */
  lemma AlphabetIsAlphaNum()
    ensures |ALPHANUM| == 62
    ensures forall k :: 0 <= k < 62 ==> IsAlphaNum(ALPHANUM[k])
    ensures forall c :: IsAlphaNum(c) ==> exists k :: 0 <= k < 62 && ALPHANUM[k] == c
  {
    forall c | IsAlphaNum(c)
      ensures exists k :: 0 <= k < 62 && ALPHANUM[k] == c
    {
      var k := if c <= '9' then c as int - '0' as int
               else if c <= 'Z' then 10 + c as int - 'A' as int
               else 36 + c as int - 'a' as int;
      assert ALPHANUM[k] == c;
    }
  }

  /** `gen_random`: `len` characters, one per call of `rand()`. */
  method GenRandom(len: nat, rand: nat -> nat, start: nat) returns (s: string)
    ensures s == RandomString(len, rand, start)
  {
    s := "";
    var i := 0;
    while i < len
      invariant 0 <= i <= len
      invariant s == RandomString(i, rand, start)
    {
      s := s + [ALPHANUM[rand(start + i) % (|ALPHANUM|)]];
      i := i + 1;
    }
  }

  // ---------------------------------------------------------------------
  // Topics.
  // ---------------------------------------------------------------------

  datatype Topic = Topic(topicType: string, path: string, buffer: seq<byte>)

  /** The `Topic` constructor: the buffer holds the first `len` bytes at
      `ptr`, or nothing for a null pointer. */
  function MakeTopic(topicType: string, path: string, ptr: Option<seq<byte>>, len: nat): (t: Topic)
    requires ptr.Some? ==> len <= |ptr.value|
    ensures t.topicType == topicType && t.path == path
    ensures ptr.None? ==> t.buffer == []
    ensures ptr.Some? ==> |t.buffer| == len && forall i :: 0 <= i < len ==> t.buffer[i] == ptr.value[i]
  {
    Topic(topicType, path, if ptr.Some? then ptr.value[..len] else [])
  }

  /** What the viewer's error callback receives. */
  datatype Error = Error(code: int, message: string)

  /** The SDK error record: a code and a message. */
  datatype DiffusionError = DiffusionError(code: int, message: string)

  /** The SDK topic message: type, topic name and payload bytes. */
  datatype TopicMessage = TopicMessage(messageType: int, name: string, payload: seq<byte>)

  /** A call of one of the viewer's callbacks. */
  datatype Notice = FetchCompleted | FetchFailed(error: Error)

  const HANDLER_SUCCESS: int := 0
  const HANDLER_FAILURE: int := -1

  /** The length of an offline topic path. */
  const PATH_LENGTH: nat := 40

  /** The ten topics of an offline fetch: paths of 40 random characters, the
      `i`-th drawn by calls `start + 40 * i` onwards, no payload. */
  function OfflineTopics(rand: nat -> nat, start: nat): (ts: seq<Topic>)
    ensures |ts| == 10 && forall i :: 0 <= i < 10 ==> ts[i] == OfflineTopic(rand, start, i)
  {
    seq(10, i requires 0 <= i < 10 => OfflineTopic(rand, start, i))
  }

  /** The `i`-th topic of an offline fetch. */
  function OfflineTopic(rand: nat -> nat, start: nat, i: nat): Topic {
    MakeTopic("TOPIC_LOAD", RandomString(PATH_LENGTH, rand, start + PATH_LENGTH * i), None, 0)
  }

  /** An offline fetch yields exactly ten TOPIC_LOAD topics, each with a path
      of 40 alphanumeric characters and an empty buffer. */
  lemma OfflineTopicsShape(rand: nat -> nat, start: nat)
    ensures |OfflineTopics(rand, start)| == 10
    ensures forall i :: 0 <= i < 10 ==>
              && OfflineTopics(rand, start)[i].topicType == "TOPIC_LOAD"
              && |OfflineTopics(rand, start)[i].path| == PATH_LENGTH
              && (forall j :: 0 <= j < PATH_LENGTH ==> IsAlphaNum(OfflineTopics(rand, start)[i].path[j]))
              && OfflineTopics(rand, start)[i].buffer == []
  {
    forall i | 0 <= i < 10
      ensures OfflineTopics(rand, start)[i] == OfflineTopic(rand, start, i)
      ensures |OfflineTopics(rand, start)[i].path| == PATH_LENGTH
      ensures forall j :: 0 <= j < PATH_LENGTH ==> IsAlphaNum(OfflineTopics(rand, start)[i].path[j])
    {
      var path := RandomString(PATH_LENGTH, rand, start + PATH_LENGTH * i);
      RandomStringShape(PATH_LENGTH, rand, start + PATH_LENGTH * i);
      assert OfflineTopics(rand, start)[i].path == path;
    }
  }

  // ---------------------------------------------------------------------
  // The session.
  // ---------------------------------------------------------------------

  /** The session singleton. `connected` stands for a live SDK session; the
      installed callbacks are represented by whether each is set, and their
      calls are recorded in `notices`. */
  class Session {
    var topics: seq<Topic>
    var selector: string
    var connected: bool
    var completedCallbackSet: bool
    var errorCallbackSet: bool
    var notices: seq<Notice>

    constructor()
      ensures topics == [] && selector == "" && !connected
      ensures !completedCallbackSet && !errorCallbackSet && notices == []
    {
      topics := [];
      selector := "";
      connected := false;
      completedCallbackSet := false;
      errorCallbackSet := false;
      notices := [];
    }

    method SetFetchCompletedCallback(present: bool)
      modifies `completedCallbackSet
      ensures completedCallbackSet == present
    {
      completedCallbackSet := present;
    }

    method SetFetchErrorCallback(present: bool)
      modifies `errorCallbackSet
      ensures errorCallbackSet == present
    {
      errorCallbackSet := present;
    }

    /** `onFetchTopic`: appends exactly one topic at the end. */
    method OnFetchTopic(t: Topic)
      modifies `topics
      ensures topics == old(topics) + [t]
      ensures topics[..old(|topics|)] == old(topics) && topics[old(|topics|)] == t
    {
      topics := topics + [t];
    }

    /** `onFetchError`: calls the error callback only when one is set. */
    method OnFetchError(error: Error)
      modifies `notices
      ensures notices == old(notices) + (if errorCallbackSet then [FetchFailed(error)] else [])
    {
      if errorCallbackSet {
        notices := notices + [FetchFailed(error)];
      }
    }

    /** `onFetchCompleted`: calls the completion callback only when one is set. */
    method OnFetchCompleted()
      modifies `notices
      ensures notices == old(notices) + (if completedCallbackSet then [FetchCompleted] else [])
    {
      if completedCallbackSet {
        notices := notices + [FetchCompleted];
      }
    }

    /** `fetch`. With a live session it records the selector and hands the
        request to the SDK; offline it appends ten random TOPIC_LOAD topics
        and reports completion. `rand(start + n)` is the `n`-th value
        `rand()` returns during the call. */
    method Fetch(sel: string, rand: nat -> nat, start: nat)
      modifies `topics, `selector, `notices
      ensures connected ==> selector == sel && topics == old(topics) && notices == old(notices)
      ensures !connected ==> selector == old(selector)
      ensures !connected ==> topics == old(topics) + OfflineTopics(rand, start)
      ensures !connected ==> notices == old(notices) + (if completedCallbackSet then [FetchCompleted] else [])
    {
      if connected {
        selector := sel;
      } else {
        var i := 0;
        while i < 10
          invariant 0 <= i <= 10
          invariant topics == old(topics) + OfflineTopics(rand, start)[..i]
          invariant notices == old(notices) && selector == old(selector)
        {
          var path := GenRandom(PATH_LENGTH, rand, start + PATH_LENGTH * i);
          var t := MakeTopic("TOPIC_LOAD", path, None, 0);
          assert t == OfflineTopics(rand, start)[i];
          ghost var done := OfflineTopics(rand, start)[..i];
          PrefixSnoc(OfflineTopics(rand, start), i);
          topics := topics + [t];
          assert topics == old(topics) + (done + [t]);
          i := i + 1;
        }
        assert OfflineTopics(rand, start)[..i] == OfflineTopics(rand, start);
        OnFetchCompleted();
      }
    }

    /** `on_fetch`: a COMPL topic for the selector, then completion. */
    method OnFetch() returns (result: int)
      modifies `topics, `notices
      ensures topics == old(topics) + [MakeTopic("COMPL", selector, None, 0)]
      ensures notices == old(notices) + (if completedCallbackSet then [FetchCompleted] else [])
      ensures result == HANDLER_SUCCESS
    {
      OnFetchTopic(MakeTopic("COMPL", selector, None, 0));
      OnFetchCompleted();
      result := HANDLER_SUCCESS;
    }

    /** `on_topic`: a topic named by the message's type, with its name and
        payload; a missing message is ignored. Both succeed. */
    method OnTopic(message: Option<TopicMessage>) returns (result: int)
      modifies `topics
      ensures message.None? ==> topics == old(topics)
      ensures message.Some? ==>
                var m := message.value;
                topics == old(topics) + [MakeTopic(TopicTypeName(m.messageType), m.name, Some(m.payload), |m.payload|)]
      ensures result == HANDLER_SUCCESS
    {
      if message.Some? {
        var m := message.value;
        OnFetchTopic(MakeTopic(TopicTypeName(m.messageType), m.name, Some(m.payload), |m.payload|));
      }
      result := HANDLER_SUCCESS;
    }

    /** `on_fetch_error`: without an error it fails and changes nothing;
        otherwise an ERROR topic with the message as its path, then the code
        and message go to the error callback. */
    method OnFetchErrorHandler(error: Option<DiffusionError>) returns (result: int)
      modifies `topics, `notices
      ensures error.None? ==> result == HANDLER_FAILURE && topics == old(topics) && notices == old(notices)
      ensures error.Some? ==>
                && result == HANDLER_SUCCESS
                && topics == old(topics) + [MakeTopic("ERROR", error.value.message, None, 0)]
                && notices == old(notices) + (if errorCallbackSet then [FetchFailed(Error(error.value.code, error.value.message))] else [])
    {
      if error.Some? {
        OnFetchTopic(MakeTopic("ERROR", error.value.message, None, 0));
        OnFetchError(Error(error.value.code, error.value.message));
        return HANDLER_SUCCESS;
      }
      return HANDLER_FAILURE;
    }

    /** `on_fetch_status_message`: a FETCHSTAT topic whose path is the
        selector followed by the status's topic path. */
    method OnFetchStatusMessage(topicPath: string) returns (result: int)
      modifies `topics
      ensures topics == old(topics) + [MakeTopic("FETCHSTAT", selector + topicPath, None, 0)]
      ensures result == HANDLER_SUCCESS
    {
      OnFetchTopic(MakeTopic("FETCHSTAT", selector + topicPath, None, 0));
      result := HANDLER_SUCCESS;
    }

    /** `on_fetch_discard`: a DISK topic for the selector. */
    method OnFetchDiscard() returns (result: int)
      modifies `topics
      ensures topics == old(topics) + [MakeTopic("DISK", selector, None, 0)]
      ensures result == HANDLER_SUCCESS
    {
      OnFetchTopic(MakeTopic("DISK", selector, None, 0));
      result := HANDLER_SUCCESS;
    }
  }
}
