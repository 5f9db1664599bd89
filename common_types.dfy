/** The SDK's connection-response table: every response code the server can
    answer a connection request with, its description, how the client is to
    treat it (success, retriable, fatal, fatal for authentication) and the
    API error it is reported as; the table ends with an entry without a
    description. Also the numbering of message priorities. */
module ConnectionResponses {
  import opened Wrappers

  // ---------------------------------------------------------------------
  // Enumerations.
  // ---------------------------------------------------------------------

  datatype MessagePriority = IMMEDIATE | HIGH | MEDIUM | LOW

  function PriorityValue(p: MessagePriority): int {
    match p
    case IMMEDIATE => 0
    case HIGH => 1
    case MEDIUM => 2
    case LOW => 3
  }

  /** The priority with a given number, if any. */
  function PriorityOf(n: int): Option<MessagePriority> {
    if n == 0 then Some(IMMEDIATE)
    else if n == 1 then Some(HIGH)
    else if n == 2 then Some(MEDIUM)
    else if n == 3 then Some(LOW)
    else None
  }

  /** Priorities are numbered 0 to 3, IMMEDIATE first and LOW last, each
      number naming exactly one priority. */
  lemma PriorityNumbering(p: MessagePriority, n: int)
    ensures PriorityOf(PriorityValue(p)) == Some(p)
    ensures PriorityOf(n).Some? <==> 0 <= n <= 3
    ensures PriorityOf(n).Some? ==> PriorityValue(PriorityOf(n).value) == n
    ensures PriorityValue(IMMEDIATE) < PriorityValue(HIGH) < PriorityValue(MEDIUM) < PriorityValue(LOW)
  {
  }

  datatype ResponseType = SUCCESS | RETRIABLE | FATAL | FATAL_AUTHENTICATION

  function ResponseTypeValue(t: ResponseType): int {
    match t
    case SUCCESS => 0
    case RETRIABLE => 1
    case FATAL => 2
    case FATAL_AUTHENTICATION => 3
  }

  /** The response type with a given number, if any. */
  function ResponseTypeOf(n: int): Option<ResponseType> {
    if n == 0 then Some(SUCCESS)
    else if n == 1 then Some(RETRIABLE)
    else if n == 2 then Some(FATAL)
    else if n == 3 then Some(FATAL_AUTHENTICATION)
    else None
  }

  /** Response types are numbered 0 to 3, each number naming exactly one. */
  lemma ResponseTypeNumbering(t: ResponseType, n: int)
    ensures ResponseTypeOf(ResponseTypeValue(t)) == Some(t)
    ensures ResponseTypeOf(n).Some? <==> 0 <= n <= 3
    ensures ResponseTypeOf(n).Some? ==> ResponseTypeValue(ResponseTypeOf(n).value) == n
  {
  }

  // Response codes.
  const CODE_OK: int := 100
  const CODE_DOWNGRADE: int := 102
  const CODE_RECONNECTED: int := 105
  const CODE_RECONNECTED_WITH_MESSAGE_LOSS: int := 106
  const CODE_REJECTED: int := 111
  const CODE_CONNECTION_UNSUPPORTED: int := 112
  const CODE_LICENSE_EXCEEDED: int := 113
  const CODE_RECONNECTION_UNSUPPORTED: int := 114
  const CODE_CONNECTION_PROTOCOL_ERROR: int := 115
  const CODE_AUTHENTICATION_FAILED: int := 116
  const CODE_UNKNOWN_SESSION: int := 117
  const CODE_RECONNECTION_FAILED_MESSAGE_LOSS: int := 118
  const CODE_ERROR: int := 127

  // API error codes, numbered in their order of declaration.
  const DIFF_ERR_SUCCESS: int := 0
  const DIFF_ERR_CONNECTION_REJECTED: int := 18
  const DIFF_ERR_CONNECTION_ERROR_UNDEFINED: int := 19
  const DIFF_ERR_DOWNGRADE: int := 26
  const DIFF_ERR_CONNECTION_UNSUPPORTED: int := 27
  const DIFF_ERR_LICENCE_EXCEEDED: int := 28
  const DIFF_ERR_RECONNECTION_UNSUPPORTED: int := 29
  const DIFF_ERR_CONNECTION_PROTOCOL_ERROR: int := 30
  const DIFF_ERR_AUTHENTICATION_FAILED: int := 31
  const DIFF_ERR_UNKNOWN_SESSION: int := 33
  const DIFF_ERR_MESSAGE_LOSS: int := 34

  /** One entry of the table; `msg` is None for the terminator. */
  datatype ConnectionResponse = ConnectionResponse(code: int, msg: Option<string>, responseType: ResponseType, errorCode: int)

  const CONNECTION_RESPONSE_LIST: seq<ConnectionResponse> := [
    ConnectionResponse(CODE_OK, Some("Connected successfully"), SUCCESS, DIFF_ERR_SUCCESS),
    ConnectionResponse(CODE_DOWNGRADE, Some("Server does not support the requested protocol level"), FATAL, DIFF_ERR_DOWNGRADE),
    ConnectionResponse(CODE_RECONNECTED, Some("Reconnected successfully"), SUCCESS, DIFF_ERR_SUCCESS),
    ConnectionResponse(CODE_RECONNECTED_WITH_MESSAGE_LOSS, Some("Reconnected with message loss"), SUCCESS, DIFF_ERR_SUCCESS),
    ConnectionResponse(CODE_REJECTED, Some("Connection rejected"), FATAL_AUTHENTICATION, DIFF_ERR_CONNECTION_REJECTED),
    ConnectionResponse(CODE_CONNECTION_UNSUPPORTED, Some("Connection type not supported by connector"), FATAL, DIFF_ERR_CONNECTION_UNSUPPORTED),
    ConnectionResponse(CODE_LICENSE_EXCEEDED, Some("Connection rejected due to license limit"), FATAL, DIFF_ERR_LICENCE_EXCEEDED),
    ConnectionResponse(CODE_RECONNECTION_UNSUPPORTED, Some("Reconnection not supported by connector"), FATAL, DIFF_ERR_RECONNECTION_UNSUPPORTED),
    ConnectionResponse(CODE_CONNECTION_PROTOCOL_ERROR, Some("Connection failed - protocol error"), FATAL, DIFF_ERR_CONNECTION_PROTOCOL_ERROR),
    ConnectionResponse(CODE_AUTHENTICATION_FAILED, Some("Authentication failed"), FATAL_AUTHENTICATION, DIFF_ERR_AUTHENTICATION_FAILED),
    ConnectionResponse(CODE_UNKNOWN_SESSION, Some("Reconnection failed - the session is unknown"), FATAL, DIFF_ERR_UNKNOWN_SESSION),
    ConnectionResponse(CODE_RECONNECTION_FAILED_MESSAGE_LOSS, Some("Reconnection failed due to message loss"), FATAL, DIFF_ERR_MESSAGE_LOSS),
    ConnectionResponse(CODE_ERROR, Some("Connection failed due to server error"), RETRIABLE, DIFF_ERR_CONNECTION_ERROR_UNDEFINED),
    ConnectionResponse(CODE_OK, None, SUCCESS, DIFF_ERR_SUCCESS)
  ]

  // ---------------------------------------------------------------------
  // Scanning a table up to its terminator.
  // ---------------------------------------------------------------------

  /** The index of the first entry from `k` on without a description, or the
      length of the table when there is none. */
  function Terminator(table: seq<ConnectionResponse>, k: nat): (t: nat)
    requires k <= |table|
    ensures k <= t <= |table|
    ensures forall i :: k <= i < t ==> table[i].msg.Some?
    ensures t < |table| ==> table[t].msg.None?
    decreases |table| - k
  {
    if k == |table| || table[k].msg.None? then k else Terminator(table, k + 1)
  }

  /** The index of the first entry from `k` on with the code, looking no
      further than the terminator. */
  function Scan(table: seq<ConnectionResponse>, code: int, k: nat): (r: Option<nat>)
    requires k <= |table|
    ensures r.Some? ==> k <= r.value < Terminator(table, k) && table[r.value].code == code
    ensures r.Some? ==> forall i :: k <= i < r.value ==> table[i].code != code
    ensures r.None? ==> forall i :: k <= i < Terminator(table, k) ==> table[i].code != code
    decreases |table| - k
  {
    if k == |table| || table[k].msg.None? then None
    else if table[k].code == code then Some(k)
    else Scan(table, code, k + 1)
  }

  /** The entry for a response code. */
  function Lookup(code: int): (r: Option<ConnectionResponse>)
    ensures r.Some? ==> r.value.code == code && r.value.msg.Some?
    ensures r.Some? ==> exists i :: 0 <= i < Terminator(CONNECTION_RESPONSE_LIST, 0) && CONNECTION_RESPONSE_LIST[i] == r.value
  {
    match Scan(CONNECTION_RESPONSE_LIST, code, 0)
    case Some(i) => Some(CONNECTION_RESPONSE_LIST[i])
    case None => None
  }

  // ---------------------------------------------------------------------
  // Properties of the table.
  // ---------------------------------------------------------------------

  /** The number of entries before the terminator. */
  const ENTRIES: nat := 13

  /** What each entry before the terminator says: how its type follows from
      its code, and the error each code is reported as. */
  lemma EntryFacts(i: nat)
    requires i < ENTRIES
    ensures CONNECTION_RESPONSE_LIST[i].msg.Some?
    ensures i + 1 < ENTRIES ==> CONNECTION_RESPONSE_LIST[i].code < CONNECTION_RESPONSE_LIST[i + 1].code
    ensures var e := CONNECTION_RESPONSE_LIST[i];
            && (e.responseType == SUCCESS <==> e.code in {100, 105, 106})
            && (e.responseType == SUCCESS <==> e.errorCode == DIFF_ERR_SUCCESS)
            && (e.responseType == FATAL_AUTHENTICATION <==> e.code in {111, 116})
            && (e.responseType == RETRIABLE <==> e.code == 127)
            && (e.responseType == FATAL <==> e.code in {102, 112, 113, 114, 115, 117, 118})
            && (e.code == 127 ==> e.errorCode == DIFF_ERR_CONNECTION_ERROR_UNDEFINED)
            && (e.code == 111 ==> e.errorCode == DIFF_ERR_CONNECTION_REJECTED)
            && (e.code == 116 ==> e.errorCode == DIFF_ERR_AUTHENTICATION_FAILED)
            && (e.errorCode != DIFF_ERR_SUCCESS ==> ResponseCodeOf(e.errorCode) == Some(e.code))
  {
    if i == 0 {} else if i == 1 {} else if i == 2 {} else if i == 3 {} else if i == 4 {}
    else if i == 5 {} else if i == 6 {} else if i == 7 {} else if i == 8 {} else if i == 9 {}
    else if i == 10 {} else if i == 11 {} else {}
  }

  /** The response code each non-success error is reported for: the inverse
      of the table's error column. */
  function ResponseCodeOf(errorCode: int): Option<int> {
    if errorCode == DIFF_ERR_DOWNGRADE then Some(CODE_DOWNGRADE)
    else if errorCode == DIFF_ERR_CONNECTION_REJECTED then Some(CODE_REJECTED)
    else if errorCode == DIFF_ERR_CONNECTION_UNSUPPORTED then Some(CODE_CONNECTION_UNSUPPORTED)
    else if errorCode == DIFF_ERR_LICENCE_EXCEEDED then Some(CODE_LICENSE_EXCEEDED)
    else if errorCode == DIFF_ERR_RECONNECTION_UNSUPPORTED then Some(CODE_RECONNECTION_UNSUPPORTED)
    else if errorCode == DIFF_ERR_CONNECTION_PROTOCOL_ERROR then Some(CODE_CONNECTION_PROTOCOL_ERROR)
    else if errorCode == DIFF_ERR_AUTHENTICATION_FAILED then Some(CODE_AUTHENTICATION_FAILED)
    else if errorCode == DIFF_ERR_UNKNOWN_SESSION then Some(CODE_UNKNOWN_SESSION)
    else if errorCode == DIFF_ERR_MESSAGE_LOSS then Some(CODE_RECONNECTION_FAILED_MESSAGE_LOSS)
    else if errorCode == DIFF_ERR_CONNECTION_ERROR_UNDEFINED then Some(CODE_ERROR)
    else None
  }

  /** Codes increase along the table, so no two entries share a code. */
  lemma {:induction false} CodesIncrease(i: nat, j: nat)
    requires i < j < ENTRIES
    ensures CONNECTION_RESPONSE_LIST[i].code < CONNECTION_RESPONSE_LIST[j].code
    decreases j - i
  {
    EntryFacts(i);
    if i + 1 < j {
      CodesIncrease(i + 1, j);
    }
  }

  /** The table holds 13 entries and then the terminator, which is its last
      entry; the scan stops there. */
  lemma TableShape()
    ensures |CONNECTION_RESPONSE_LIST| == ENTRIES + 1
    ensures Terminator(CONNECTION_RESPONSE_LIST, 0) == ENTRIES
    ensures CONNECTION_RESPONSE_LIST[ENTRIES].msg.None?
  {
    var t := Terminator(CONNECTION_RESPONSE_LIST, 0);
    assert CONNECTION_RESPONSE_LIST[ENTRIES].msg.None?;
    if t < ENTRIES {
      EntryFacts(t);
    }
  }

  /** A code has an entry exactly when one of the 13 entries carries it, and
      then it is that entry. */
  lemma LookupFinds(code: int)
    ensures Lookup(code).Some? <==> exists i :: 0 <= i < ENTRIES && CONNECTION_RESPONSE_LIST[i].code == code
    ensures forall i :: 0 <= i < ENTRIES && CONNECTION_RESPONSE_LIST[i].code == code ==>
              Lookup(code) == Some(CONNECTION_RESPONSE_LIST[i])
    ensures Lookup(code).Some? ==> Lookup(code).value.code == code && Lookup(code).value.msg.Some?
  {
    TableShape();
    var r := Scan(CONNECTION_RESPONSE_LIST, code, 0);
    forall i | 0 <= i < ENTRIES && CONNECTION_RESPONSE_LIST[i].code == code
      ensures Lookup(code) == Some(CONNECTION_RESPONSE_LIST[i])
    {
      if r.Some? && r.value < i {
        CodesIncrease(r.value, i);
      }
    }
    if r.Some? {
      EntryFacts(r.value);
    }
  }

  /** The entries below the terminator carry the codes 100, 102, 105, 106,
      111 to 118 and 127: exactly those codes are found. */
  lemma KnownCodes(code: int)
    ensures Lookup(code).Some? <==> code in {100, 102, 105, 106, 111, 112, 113, 114, 115, 116, 117, 118, 127}
  {
    LookupFinds(code);
    if Lookup(code).Some? {
      var i :| 0 <= i < ENTRIES && CONNECTION_RESPONSE_LIST[i].code == code;
      EntryFacts(i);
    }
    if code in {100, 102, 105, 106, 111, 112, 113, 114, 115, 116, 117, 118, 127} {
      var i := if code == 100 then 0 else if code == 102 then 1 else if code == 105 then 2
               else if code == 106 then 3 else if code == 127 then 12 else code - 107;
      assert CONNECTION_RESPONSE_LIST[i].code == code;
    }
  }

  /** Codes 100, 105 and 106 are exactly the SUCCESS responses, all reported
      as DIFF_ERR_SUCCESS. */
  lemma SuccessResponses(code: int)
    ensures (Lookup(code).Some? && Lookup(code).value.responseType == SUCCESS) <==> code in {100, 105, 106}
    ensures Lookup(code).Some? ==> (Lookup(code).value.responseType == SUCCESS <==> Lookup(code).value.errorCode == DIFF_ERR_SUCCESS)
  {
    KnownCodes(code);
    LookupFinds(code);
    if Lookup(code).Some? {
      var i :| 0 <= i < ENTRIES && CONNECTION_RESPONSE_LIST[i].code == code;
      EntryFacts(i);
    }
  }

  /** Codes 111 (rejected, DIFF_ERR_CONNECTION_REJECTED) and 116
      (authentication failed, DIFF_ERR_AUTHENTICATION_FAILED) are the only
      FATAL_AUTHENTICATION responses. */
  lemma AuthenticationResponses(code: int)
    ensures (Lookup(code).Some? && Lookup(code).value.responseType == FATAL_AUTHENTICATION) <==> code in {111, 116}
    ensures code == 111 ==> Lookup(code).Some? && Lookup(code).value.errorCode == DIFF_ERR_CONNECTION_REJECTED
    ensures code == 116 ==> Lookup(code).Some? && Lookup(code).value.errorCode == DIFF_ERR_AUTHENTICATION_FAILED
  {
    KnownCodes(code);
    LookupFinds(code);
    if Lookup(code).Some? {
      var i :| 0 <= i < ENTRIES && CONNECTION_RESPONSE_LIST[i].code == code;
      EntryFacts(i);
    }
  }

  /** Code 127 is the only RETRIABLE response, reported as
      DIFF_ERR_CONNECTION_ERROR_UNDEFINED. */
  lemma RetriableResponses(code: int)
    ensures (Lookup(code).Some? && Lookup(code).value.responseType == RETRIABLE) <==> code == 127
    ensures code == 127 ==> Lookup(code).Some? && Lookup(code).value.errorCode == DIFF_ERR_CONNECTION_ERROR_UNDEFINED
  {
    KnownCodes(code);
    LookupFinds(code);
    if Lookup(code).Some? {
      var i :| 0 <= i < ENTRIES && CONNECTION_RESPONSE_LIST[i].code == code;
      EntryFacts(i);
    }
  }

  /** Codes 102, 112 to 115, 117 and 118 are exactly the FATAL responses. */
  lemma FatalResponses(code: int)
    ensures (Lookup(code).Some? && Lookup(code).value.responseType == FATAL) <==> code in {102, 112, 113, 114, 115, 117, 118}
  {
    KnownCodes(code);
    LookupFinds(code);
    if Lookup(code).Some? {
      var i :| 0 <= i < ENTRIES && CONNECTION_RESPONSE_LIST[i].code == code;
      EntryFacts(i);
    }
  }

  /** Every response that is not a success is reported as an error of its
      own: two codes reported as the same non-success error are equal. */
  lemma ErrorsDistinct(a: int, b: int)
    requires Lookup(a).Some? && Lookup(b).Some?
    requires Lookup(a).value.errorCode == Lookup(b).value.errorCode != DIFF_ERR_SUCCESS
    ensures a == b
  {
    LookupFinds(a);
    LookupFinds(b);
    var i :| 0 <= i < ENTRIES && CONNECTION_RESPONSE_LIST[i].code == a;
    var j :| 0 <= j < ENTRIES && CONNECTION_RESPONSE_LIST[j].code == b;
    EntryFacts(i);
    EntryFacts(j);
  }
}
