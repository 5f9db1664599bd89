/** Reconnection strategies: the repeating strategy and the timeout it
    derives from its retry count and delay, the user-function strategy, an
    explicit timeout that overrides the derived one, and the URLs tried on
    reconnection. A NULL URL list is `None` here. */
module Reconnects {
  import opened Wrappers

  /** `DIFFUSION_DEFAULT_RECONNECT_TIMEOUT`, in milliseconds. */
  const DEFAULT_RECONNECT_TIMEOUT: int := 60000
  /** `DIFFUSION_DEFAULT_RECONNECT_DELAY`, in milliseconds. */
  const DEFAULT_RECONNECT_DELAY: int := 5000
  /** `DIFFUSION_DEFAULT_RECONNECT_RETRY_COUNT`: the default attempts fill
      the default timeout at the default delay. */
  const DEFAULT_RECONNECT_RETRY_COUNT: int := DEFAULT_RECONNECT_TIMEOUT / DEFAULT_RECONNECT_DELAY

  /** `RECONNECTION_ATTEMPT_ACTION_T`. */
  datatype ReconnectAction = START | ABORT

  function ActionValue(a: ReconnectAction): int {
    match a
    case START => 0
    case ABORT => 1
  }

  /** The default retry count is 12, and 12 attempts at the default delay
      last exactly the default timeout. */
  lemma DefaultRetryCount()
    ensures DEFAULT_RECONNECT_RETRY_COUNT == 12
    ensures DEFAULT_RECONNECT_RETRY_COUNT * DEFAULT_RECONNECT_DELAY == DEFAULT_RECONNECT_TIMEOUT
    ensures ActionValue(START) == 0 && ActionValue(ABORT) == 1
  {
  }

  /** The timeout a repeating strategy derives: a delay of 0 with some
      retries asks for the default timeout; otherwise the retries last
      count times delay. */
  function RepeatingTimeout(retryCount: int, retryDelay: int): (t: int)
    ensures retryCount > 0 && retryDelay == 0 ==> t == DEFAULT_RECONNECT_TIMEOUT
    ensures !(retryCount > 0 && retryDelay == 0) ==> t == retryCount * retryDelay
    ensures retryCount == 0 ==> t == 0
  {
    if retryCount > 0 && retryDelay == 0 then DEFAULT_RECONNECT_TIMEOUT else retryCount * retryDelay
  }

  /** The defaults agree: the default count at the default delay gives
      the default timeout, as does the default count asking for the system
      default with a delay of 0. */
  lemma DefaultsAgree()
    ensures RepeatingTimeout(DEFAULT_RECONNECT_RETRY_COUNT, DEFAULT_RECONNECT_DELAY) == DEFAULT_RECONNECT_TIMEOUT
    ensures RepeatingTimeout(DEFAULT_RECONNECT_RETRY_COUNT, 0) == DEFAULT_RECONNECT_TIMEOUT
  {
    DefaultRetryCount();
  }

  /** The answers of a repeating strategy to its first `n` questions: start
      while fewer than `retryCount` attempts have been made, then abort. */
  function RepeatingActions(retryCount: int, n: nat): (r: seq<ReconnectAction>)
    ensures |r| == n
    ensures forall i :: 0 <= i < n ==> r[i] == if i < retryCount then START else ABORT
  {
    seq(n, i requires 0 <= i < n => if i < retryCount then START else ABORT)
  }

  /** The number of START answers in `actions`. */
  function Starts(actions: seq<ReconnectAction>): nat {
    if |actions| == 0 then 0
    else Starts(actions[..|actions| - 1]) + (if actions[|actions| - 1] == START then 1 else 0)
  }

  /** A repeating strategy makes exactly `retryCount` attempts however often
      it is asked (none for a count of 0 or less), and never starts again
      after an abort. */
  lemma {:induction false} RepeatingAttemptCount(retryCount: int, n: nat)
    ensures Starts(RepeatingActions(retryCount, n)) == if retryCount <= 0 then 0 else if n <= retryCount then n else retryCount
    ensures forall i, j :: 0 <= i < j < n && RepeatingActions(retryCount, n)[i] == ABORT ==>
              RepeatingActions(retryCount, n)[j] == ABORT
  {
    if n > 0 {
      RepeatingAttemptCount(retryCount, n - 1);
      assert RepeatingActions(retryCount, n)[..n - 1] == RepeatingActions(retryCount, n - 1);
    }
  }

  /** The two kinds of strategy the factory functions make. */
  datatype StrategyKind = Repeating | UserFunction

  class ReconnectionStrategy {
    var kind: StrategyKind
    var retryCount: int
    var retryDelay: int
    /** Attempts a repeating strategy has started. */
    var retriesDone: int
    /** The reconnection timeout sent to the server, in milliseconds. */
    var reconnectTimeout: int
    /** Whether the timeout was set explicitly. */
    var overridden: bool
    /** The URLs to cascade through after the initial one. */
    var cascadeUrls: seq<string>
    /** The answers given so far. */
    ghost var actions: seq<ReconnectAction>

    /** A repeating strategy has answered as `RepeatingActions` says and
        counted its attempts. */
    ghost predicate Valid()
      reads this
    {
      kind == Repeating ==>
        && actions == RepeatingActions(retryCount, |actions|)
        && retriesDone == Starts(actions)
    }

    /** `make_reconnection_strategy_repeating_attempt`. */
    constructor RepeatingAttempt(retryCount: int, retryDelay: int)
      ensures Valid() && kind == Repeating
      ensures this.retryCount == retryCount && this.retryDelay == retryDelay && retriesDone == 0
      ensures reconnectTimeout == RepeatingTimeout(retryCount, retryDelay) && !overridden
      ensures cascadeUrls == [] && actions == []
    {
      kind := Repeating;
      this.retryCount := retryCount;
      this.retryDelay := retryDelay;
      retriesDone := 0;
      reconnectTimeout := RepeatingTimeout(retryCount, retryDelay);
      overridden := false;
      cascadeUrls := [];
      actions := [];
    }

    /** `make_reconnection_strategy_user_function`; the timeout a
        user-function strategy starts with is not stated, so it is the
        default here. */
    constructor UserFunctionStrategy()
      ensures Valid() && kind == UserFunction && !overridden && cascadeUrls == [] && actions == []
    {
      kind := UserFunction;
      retryCount := 0;
      retryDelay := 0;
      retriesDone := 0;
      reconnectTimeout := DEFAULT_RECONNECT_TIMEOUT;
      overridden := false;
      cascadeUrls := [];
      actions := [];
    }

    /** Asks whether to attempt a reconnection. A repeating strategy
        (`reconnection_repeating`) starts an attempt while fewer than
        `retryCount` have been made; a user-function strategy attempts
        exactly when its callback answers START (`userAnswer`). */
    method Decide(userAnswer: ReconnectAction) returns (action: ReconnectAction)
      requires Valid()
      modifies `retriesDone, `actions
      ensures Valid()
      ensures actions == old(actions) + [action]
      ensures kind == UserFunction ==> action == userAnswer
      ensures kind == Repeating ==> (action == START <==> old(retriesDone) < retryCount)
      ensures kind == Repeating && retryCount <= 0 ==> action == ABORT
    {
      if kind == UserFunction {
        action := userAnswer;
      } else {
        RepeatingAttemptCount(retryCount, |actions|);
        if retriesDone < retryCount {
          action := START;
          retriesDone := retriesDone + 1;
        } else {
          action := ABORT;
        }
        assert (actions + [action])[..|actions|] == actions;
        assert actions + [action] == RepeatingActions(retryCount, |actions| + 1);
      }
      actions := actions + [action];
    }

    /** `reconnection_strategy_set_timeout`: the given timeout replaces the
        derived one; a timeout of 0 leaves only the cascade URLs to try. */
    method SetTimeout(timeout: int)
      modifies `reconnectTimeout, `overridden
      ensures reconnectTimeout == timeout && overridden
      ensures timeout == 0 ==> forall initial :: UrlsTried(initial) == cascadeUrls
      ensures timeout != 0 ==> forall initial :: UrlsTried(initial) == CandidateUrls(initial)
    {
      reconnectTimeout := timeout;
      overridden := true;
    }

    /** `reconnection_strategy_set_cascade_urls`: the given URLs in order,
        none for a NULL list. */
    method SetCascadeUrls(urls: Option<seq<string>>)
      modifies `cascadeUrls
      ensures urls.None? ==> cascadeUrls == []
      ensures urls.Some? ==> cascadeUrls == urls.value
    {
      cascadeUrls := if urls.Some? then urls.value else [];
    }

    /** The URLs tried in turn: the session's initial URL, then the cascade
        URLs in order. */
    function CandidateUrls(initial: string): (urls: seq<string>)
      reads this
      ensures |urls| == 1 + |cascadeUrls| && urls[0] == initial
      ensures forall i :: 0 <= i < |cascadeUrls| ==> urls[i + 1] == cascadeUrls[i]
    {
      [initial] + cascadeUrls
    }

    /** The URLs a reconnection actually tries: a timeout of 0 rules out the
        same server, so the initial URL is tried only when it is itself a
        cascade URL; cascading goes ahead, in order, whatever the timeout. */
    function UrlsTried(initial: string): (urls: seq<string>)
      reads this
      ensures initial in urls <==> reconnectTimeout != 0 || initial in cascadeUrls
      ensures |urls| == |cascadeUrls| + (if reconnectTimeout == 0 then 0 else 1)
      ensures forall i :: 0 <= i < |cascadeUrls| ==> urls[|urls| - |cascadeUrls| + i] == cascadeUrls[i]
      ensures reconnectTimeout != 0 ==> urls[0] == initial
    {
      if reconnectTimeout == 0 then cascadeUrls else CandidateUrls(initial)
    }
  }

  /** Asking for a timeout of 0 stops reconnection to the same server but
      keeps the cascade: after `SetTimeout(0)` the initial URL is tried only
      if it is listed for cascading, and the cascade URLs are still tried,
      all of them, in order. */
  method ZeroTimeoutCascadesOnly(s: ReconnectionStrategy, initial: string)
    modifies s
    ensures s.reconnectTimeout == 0 && s.cascadeUrls == old(s.cascadeUrls)
    ensures initial in s.UrlsTried(initial) <==> initial in old(s.cascadeUrls)
    ensures s.UrlsTried(initial) == old(s.cascadeUrls)
  {
    s.SetTimeout(0);
  }
}
