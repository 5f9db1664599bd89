/** The parts of the SDK's session interface whose behaviour its header
    states: the session states, the comparison of session IDs, the answers
    given for a NULL session handle, and the outbound queue capacity. A NULL
    handle is a `null` reference here and a NULL string or ID is `None`. */
module SessionApi {
  import opened Wrappers

  newtype uint64 = x: int | 0 <= x < 0x1_0000_0000_0000_0000

  /** `SESSION_STATE_T`, in declaration order from -1. */
  datatype SessionState =
    | SESSION_STATE_UNKNOWN
    | CONNECTING
    | CONNECTED_INITIALISING
    | CONNECTED_ACTIVE
    | RECOVERING_RECONNECT
    | RECOVERING_FAILOVER
    | CLOSED_BY_CLIENT
    | CLOSED_BY_SERVER
    | CLOSED_FAILED

  function StateValue(s: SessionState): int {
    match s
    case SESSION_STATE_UNKNOWN => -1
    case CONNECTING => 0
    case CONNECTED_INITIALISING => 1
    case CONNECTED_ACTIVE => 2
    case RECOVERING_RECONNECT => 3
    case RECOVERING_FAILOVER => 4
    case CLOSED_BY_CLIENT => 5
    case CLOSED_BY_SERVER => 6
    case CLOSED_FAILED => 7
  }

  /** The state with C value `n`, if any. */
  function StateOf(n: int): (r: Option<SessionState>)
    ensures r.Some? ==> StateValue(r.value) == n
  {
    if n == -1 then Some(SESSION_STATE_UNKNOWN)
    else if n == 0 then Some(CONNECTING)
    else if n == 1 then Some(CONNECTED_INITIALISING)
    else if n == 2 then Some(CONNECTED_ACTIVE)
    else if n == 3 then Some(RECOVERING_RECONNECT)
    else if n == 4 then Some(RECOVERING_FAILOVER)
    else if n == 5 then Some(CLOSED_BY_CLIENT)
    else if n == 6 then Some(CLOSED_BY_SERVER)
    else if n == 7 then Some(CLOSED_FAILED)
    else None
  }

  /** The states are numbered -1 to 7 without gaps, each by its own value. */
  lemma StateNumbering(s: SessionState, n: int)
    ensures StateOf(StateValue(s)) == Some(s)
    ensures StateOf(n).Some? <==> -1 <= n <= 7
    ensures -1 <= StateValue(s) <= 7
  {
  }

  /** `SESSION_ID_T`: a server instance and a session on it. */
  datatype SessionId = SessionId(serverInstance: uint64, value: uint64)

  /** `session_id_cmp`. */
  function SessionIdCmp(s1: SessionId, s2: SessionId): (r: int)
    ensures r == 0 <==> s1 == s2
    ensures r == 1 <==> s1.serverInstance == s2.serverInstance && s1.value != s2.value
    ensures r == -1 <==> s1.serverInstance != s2.serverInstance
  {
    if s1.serverInstance != s2.serverInstance then -1
    else if s1.value != s2.value then 1
    else 0
  }

  /** The comparison does not depend on the order of its arguments, and an
      ID compares equal to itself. */
  lemma SessionIdCmpSymmetric(s1: SessionId, s2: SessionId)
    ensures SessionIdCmp(s1, s2) == SessionIdCmp(s2, s1)
    ensures SessionIdCmp(s1, s1) == 0
  {
  }

  /** `session_id_to_string`: NULL for a NULL ID; the text of an ID is
      produced by `format`, whose layout is not part of this model. */
  function IdToString(id: Option<SessionId>, format: SessionId -> string): (r: Option<string>)
    ensures id.None? ==> r.None?
    ensures id.Some? ==> r == Some(format(id.value))
  {
    match id
    case None => None
    case Some(i) => Some(format(i))
  }

  /** `session_id_create_from_string`: NULL for a NULL string; otherwise
      whatever `parse` makes of the text, NULL standing for an error. */
  function IdFromString(str: Option<string>, parse: string -> Option<SessionId>): (r: Option<SessionId>)
    ensures str.None? ==> r.None?
    ensures str.Some? ==> r == parse(str.value)
  {
    match str
    case None => None
    case Some(s) => parse(s)
  }

  class Session {
    var state: SessionState
    /** Capacity of the outbound queue in messages; -1 is unbounded. */
    var queueCapacity: int

    constructor(state: SessionState, queueCapacity: int)
      ensures this.state == state && this.queueCapacity == queueCapacity
    {
      this.state := state;
      this.queueCapacity := queueCapacity;
    }

    /** `session_set_maximum_outbound_queue_size`: installs the new capacity
        and returns the one it replaces. */
    method SetMaximumOutboundQueueSize(size: int) returns (previous: int)
      requires size >= -1
      modifies `queueCapacity
      ensures previous == old(queueCapacity) && queueCapacity == size
      ensures Unbounded() <==> size == -1
    {
      previous := queueCapacity;
      queueCapacity := size;
    }

    predicate Unbounded()
      reads this
    {
      queueCapacity == -1
    }
  }

  /** `session_state_get`: the state, or UNKNOWN for a NULL handle. */
  function StateGet(session: Session?): (s: SessionState)
    reads session
    ensures session == null ==> s == SESSION_STATE_UNKNOWN
    ensures session != null ==> s == session.state
  {
    if session == null then SESSION_STATE_UNKNOWN else session.state
  }

  /** `session_is_connected`: FALSE for a NULL handle. */
  function IsConnected(session: Session?): (b: bool)
    reads session
    ensures session == null ==> !b
    ensures b <==> StateGet(session) in {CONNECTED_INITIALISING, CONNECTED_ACTIVE}
  {
    session != null && (session.state == CONNECTED_INITIALISING || session.state == CONNECTED_ACTIVE)
  }

  /** `session_is_recovering`: FALSE for a NULL handle. */
  function IsRecovering(session: Session?): (b: bool)
    reads session
    ensures session == null ==> !b
    ensures b <==> StateGet(session) in {RECOVERING_RECONNECT, RECOVERING_FAILOVER}
  {
    session != null && (session.state == RECOVERING_RECONNECT || session.state == RECOVERING_FAILOVER)
  }

  /** `session_is_closed`: TRUE for a NULL handle. */
  function IsClosed(session: Session?): (b: bool)
    reads session
    ensures session == null ==> b
    ensures session != null ==> (b <==> session.state in {CLOSED_BY_CLIENT, CLOSED_BY_SERVER, CLOSED_FAILED})
  {
    session == null || session.state == CLOSED_BY_CLIENT || session.state == CLOSED_BY_SERVER || session.state == CLOSED_FAILED
  }

  /** A session is at most one of connected, recovering and closed; a NULL
      handle is only closed, and a connecting session or one in an unknown
      state is none of them. */
  lemma StatusesExclusive(session: Session?)
    ensures !(IsConnected(session) && IsRecovering(session))
    ensures !(IsConnected(session) && IsClosed(session))
    ensures !(IsRecovering(session) && IsClosed(session))
    ensures StateGet(session) in {CONNECTING, SESSION_STATE_UNKNOWN} && session != null ==>
              !IsConnected(session) && !IsRecovering(session) && !IsClosed(session)
  {
  }
}
