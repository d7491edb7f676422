/**
 * The connection bookkeeping of the `useYjs` effect (src/hooks/useYjs.ts),
 * as a pure state machine: the closure counter `retries`, the delays passed
 * to `setTimeout`, and the hook state `isSynced` and `connectionError`.
 */
module Reconnect {
  import opened Wrappers

  const MaxRetries: nat := 3
  /** Milliseconds of backoff per retry already made. */
  const RetryDelayUnit: nat := 1000
  const ExhaustedMessage: string := "Failed to connect after multiple attempts"

  datatype Session = Session(retries: nat, delays: seq<nat>, isSynced: bool, connectionError: Option<string>)

  /** The events the effect reacts to. */
  datatype Event =
    | Synced
    | ConnectionClose
    | ConnectionError
    | ConstructorThrew(message: string)

  /** The state after the hook's first render and before any event. */
  const Initial := Session(0, [], false, None)

  /** A new effect run: fresh closure variables, the hook state kept. */
  function Restart(s: Session): (r: Session)
    ensures Bounded(r) && r.retries == 0
    ensures r.isSynced == s.isSynced && r.connectionError == s.connectionError
  {
    s.(retries := 0, delays := [])
  }

  /**
   * One event. `synced` and `connection-close` only toggle `isSynced`; a
   * throwing constructor only records its message; no event lowers the
   * counter, cancels a scheduled delay or clears a recorded error.
   */
  function Step(s: Session, e: Event): (t: Session)
    ensures (e == Synced || e == ConnectionClose) ==>
      t.isSynced == (e == Synced) && t.retries == s.retries && t.delays == s.delays &&
      t.connectionError == s.connectionError
    ensures e.ConstructorThrew? ==>
      t.connectionError == Some(e.message) && t.retries == s.retries && t.delays == s.delays &&
      t.isSynced == s.isSynced
    ensures t.retries >= s.retries && s.delays <= t.delays
    ensures s.connectionError.Some? ==> t.connectionError.Some?
  {
    match e
    case Synced => s.(isSynced := true)
    case ConnectionClose => s.(isSynced := false)
    case ConnectionError =>
      if s.retries < MaxRetries then
        s.(retries := s.retries + 1, delays := s.delays + [RetryDelayUnit * (s.retries + 1)])
      else
        s.(connectionError := Some(ExhaustedMessage))
    case ConstructorThrew(m) => s.(connectionError := Some(m))
  }

  /** The events of `es` in turn; over a whole run the counter and the schedule only grow, and an error stays. */
  function Replay(s: Session, es: seq<Event>): (r: Session)
    ensures r.retries >= s.retries && s.delays <= r.delays
    ensures s.connectionError.Some? ==> r.connectionError.Some?
    decreases |es|
  {
    if es == [] then s else Replay(Step(s, es[0]), es[1..])
  }

  /** The schedule 1000, 2000, ..., 1000 * n. */
  function BackoffDelays(n: nat): (ds: seq<nat>)
    ensures |ds| == n
  {
    seq(n, i => RetryDelayUnit * (i + 1))
  }

  /** The counter stays within its cap and each retry so far waited 1000 ms longer than the one before. */
  ghost predicate Bounded(s: Session)
  {
    s.retries <= MaxRetries && s.delays == BackoffDelays(s.retries)
  }

  function CountErrors(es: seq<Event>): nat
  {
    if es == [] then 0 else (if es[0] == ConnectionError then 1 else 0) + CountErrors(es[1..])
  }

  function Min(a: nat, b: nat): nat
  {
    if a <= b then a else b
  }

  /** The last `synced` (true) or `connection-close` (false) event of `es`, if any. */
  function LastSyncSignal(es: seq<Event>): Option<bool>
  {
    if es == [] then None
    else match LastSyncSignal(es[1..])
      case Some(b) => Some(b)
      case None =>
        if es[0] == Synced then Some(true)
        else if es[0] == ConnectionClose then Some(false)
        else None
  }

  ghost predicate NoConstructorFailure(es: seq<Event>)
  {
    forall i :: 0 <= i < |es| ==> !es[i].ConstructorThrew?
  }

  lemma StartIsBounded()
    ensures Bounded(Initial)
    ensures Initial.isSynced == false && Initial.connectionError == None
  {
  }


  /** One error event: below the cap it schedules one more retry, at the cap it sets the terminal error. */
  lemma ErrorStep(s: Session)
    requires Bounded(s)
    ensures var t := Step(s, ConnectionError);
      Bounded(t) && t.isSynced == s.isSynced &&
      (s.retries < MaxRetries ==>
        t.retries == s.retries + 1 && t.delays[s.retries] == RetryDelayUnit * t.retries &&
        t.connectionError == s.connectionError) &&
      (s.retries == MaxRetries ==>
        t.retries == s.retries && t.delays == s.delays && t.connectionError == Some(ExhaustedMessage))
  {
  }



  /** Whatever the events, the counter never exceeds 3 and the delays are 1000, 2000, 3000 in turn. */
  lemma {:induction false} ReplayBounded(s: Session, es: seq<Event>)
    requires Bounded(s)
    ensures Bounded(Replay(s, es))
    decreases |es|
  {
    if es != [] {
      if es[0] == ConnectionError {
        ErrorStep(s);
      }
      ReplayBounded(Step(s, es[0]), es[1..]);
    }
  }

  /** The counter counts error events up to the cap; nothing else, `synced` included, resets or moves it. */
  lemma {:induction false} RetriesCountErrors(s: Session, es: seq<Event>)
    requires s.retries <= MaxRetries
    ensures Replay(s, es).retries == Min(s.retries + CountErrors(es), MaxRetries)
    decreases |es|
  {
    if es != [] {
      RetriesCountErrors(Step(s, es[0]), es[1..]);
    }
  }

  /**
   * Without constructor failures, the terminal error appears exactly when
   * more errors arrive than retries remain: from a fresh run, on the fourth.
   */
  lemma {:induction false} TerminalErrorAfterRetriesRunOut(s: Session, es: seq<Event>)
    requires s.retries <= MaxRetries && NoConstructorFailure(es)
    ensures Replay(s, es).connectionError ==
      if s.retries + CountErrors(es) > MaxRetries then Some(ExhaustedMessage) else s.connectionError
    decreases |es|
  {
    if es != [] {
      assert NoConstructorFailure(es[1..]) by {
        forall i | 0 <= i < |es[1..]| ensures !es[1..][i].ConstructorThrew? {
          assert es[1..][i] == es[i + 1];
        }
      }
      assert !es[0].ConstructorThrew?;
      TerminalErrorAfterRetriesRunOut(Step(s, es[0]), es[1..]);
    }
  }

  /** `isSynced` is whatever the last `synced` / `connection-close` event said. */
  lemma {:induction false} SyncedFollowsLastSignal(s: Session, es: seq<Event>)
    ensures Replay(s, es).isSynced == match LastSyncSignal(es) case Some(b) => b case None => s.isSynced
    decreases |es|
  {
    if es != [] {
      SyncedFollowsLastSignal(Step(s, es[0]), es[1..]);
    }
  }

  /** From a fresh run, three errors schedule 1000, 2000 and 3000 ms and leave no error; the fourth sets it. */
  lemma FourErrorsFromStart()
    ensures Replay(Initial, [ConnectionError, ConnectionError, ConnectionError]) ==
      Session(3, [1000, 2000, 3000], false, None)
    ensures Replay(Initial, [ConnectionError, ConnectionError, ConnectionError, ConnectionError]) ==
      Session(3, [1000, 2000, 3000], false, Some(ExhaustedMessage))
  {
    var three := [ConnectionError, ConnectionError, ConnectionError];
    var four := [ConnectionError, ConnectionError, ConnectionError, ConnectionError];
    assert CountErrors(three) == 3 && CountErrors(four) == 4;
    assert LastSyncSignal(three) == None && LastSyncSignal(four) == None;
    assert BackoffDelays(3) == [1000, 2000, 3000];
    StartIsBounded();
    ReplayBounded(Initial, three);
    ReplayBounded(Initial, four);
    RetriesCountErrors(Initial, three);
    RetriesCountErrors(Initial, four);
    TerminalErrorAfterRetriesRunOut(Initial, three);
    TerminalErrorAfterRetriesRunOut(Initial, four);
    SyncedFollowsLastSignal(Initial, three);
    SyncedFollowsLastSignal(Initial, four);
  }
}
