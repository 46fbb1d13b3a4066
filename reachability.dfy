/**
 * The reachability gate (`_awaken_amt`): keep connecting to the device until a
 * connection is accepted or the deadline passes. A powered-down AMT answers
 * connects with a reset for a while, so a refusal is followed by a 500 ms wait
 * and another try; any other connect error is raised at once.
 *
 * AwakenRun is the specification of the loop: from a clock reading and the
 * number of connect attempts already made, it gives the outcome, the final
 * clock reading and the final attempt count.
 */
module Reachability {
  import opened Outcomes
  import opened Network

  /** Back-off after a refused connect, in milliseconds. */
  const RetryMs: nat := 500

  datatype Awakening = Awakening(result: Result<()>, now: int, tries: nat)

  function AwakenRun(connects: nat -> Attempt, now: int, tries: nat, deadline: int): Awakening
    decreases deadline - now
  {
    if now >= deadline then Awakening(Err(AmtTimeout), now, tries)
    else
      var a := connects(tries);
      match a.outcome
      case Connected => Awakening(Ok(()), now + a.took, tries + 1)
      case Failed(e) =>
        if e == ECONNREFUSED then AwakenRun(connects, now + a.took + RetryMs, tries + 1, deadline)
        else Awakening(Err(SocketError(e)), now + a.took, tries + 1)
  }

  /** Clock time used by `n` refused attempts starting with attempt number `tries`. */
  function Waited(connects: nat -> Attempt, tries: nat, n: nat): nat
    decreases n
  {
    if n == 0 then 0 else connects(tries).took + RetryMs + Waited(connects, tries + 1, n - 1)
  }

  /**
   * What the loop can end in. It returns normally only straight after an accepted
   * connect; it raises a socket error only straight after a connect failing with
   * that (non-refusal) errno; every earlier attempt was refused; it times out only
   * with the clock at or past the deadline; and with no budget it makes no attempt.
   */
  lemma {:induction false} AwakenOutcomes(connects: nat -> Attempt, now: int, tries: nat, deadline: int)
    ensures var r := AwakenRun(connects, now, tries, deadline);
      && r.tries >= tries && r.now >= now
      && (now < deadline ==> r.tries > tries)
      && (r.result.Ok? ==> r.tries > tries && connects(r.tries - 1).outcome == Connected)
      && (r.result.Err? ==> r.result.error == AmtTimeout || r.result.error.SocketError?)
      && (r.result.Err? && r.result.error.SocketError? ==>
            r.tries > tries && r.result.error.errno != ECONNREFUSED &&
            connects(r.tries - 1).outcome == Failed(r.result.error.errno))
      && (r.result == Err(AmtTimeout) ==> r.now >= deadline)
      && (forall k :: tries <= k < r.tries - 1 ==> connects(k).outcome == Failed(ECONNREFUSED))
      && (r.result == Err(AmtTimeout) ==> forall k :: tries <= k < r.tries ==> connects(k).outcome == Failed(ECONNREFUSED))
      && (now >= deadline ==> r == Awakening(Err(AmtTimeout), now, tries))
    decreases deadline - now
  {
    if now < deadline {
      var a := connects(tries);
      if a.outcome.Failed? && a.outcome.errno == ECONNREFUSED {
        AwakenOutcomes(connects, now + a.took + RetryMs, tries + 1, deadline);
      }
    }
  }

  /**
   * Once the device starts accepting, the loop returns: if the first `n` attempts
   * are refused, they end before the deadline and attempt `n` is accepted, the loop
   * returns normally right after that attempt.
   */
  lemma {:induction false} AwakenSucceedsOnceAccepting(connects: nat -> Attempt, now: int, tries: nat, deadline: int, n: nat)
    requires forall k :: tries <= k < tries + n ==> connects(k).outcome == Failed(ECONNREFUSED)
    requires now + Waited(connects, tries, n) < deadline
    requires connects(tries + n).outcome == Connected
    ensures AwakenRun(connects, now, tries, deadline) ==
            Awakening(Ok(()), now + Waited(connects, tries, n) + connects(tries + n).took, tries + n + 1)
    decreases n
  {
    if n > 0 {
      var a := connects(tries);
      AwakenSucceedsOnceAccepting(connects, now + a.took + RetryMs, tries + 1, deadline, n - 1);
    }
  }

  /** Against a device that never accepts, the loop raises AMTTimeout, and not before the deadline. */
  lemma {:induction false} AwakenTimesOutWhenAlwaysRefused(connects: nat -> Attempt, now: int, tries: nat, deadline: int)
    requires forall k :: tries <= k ==> connects(k).outcome == Failed(ECONNREFUSED)
    ensures AwakenRun(connects, now, tries, deadline).result == Err(AmtTimeout)
    ensures AwakenRun(connects, now, tries, deadline).now >= deadline
    decreases deadline - now
  {
    if now < deadline {
      AwakenTimesOutWhenAlwaysRefused(connects, now + connects(tries).took + RetryMs, tries + 1, deadline);
    }
  }

  /**
   * How far past the deadline the loop can end: if no connect attempt takes longer
   * than `limit` ms, the final clock reading is below `deadline + limit + RetryMs`.
   * Each attempt is given the whole timeout as its own timeout, so `limit` can be as
   * large as the whole budget.
   */
  lemma {:induction false} AwakenOvershoot(connects: nat -> Attempt, now: int, tries: nat, deadline: int, limit: nat)
    requires forall k :: tries <= k ==> connects(k).took <= limit
    requires now < deadline
    ensures AwakenRun(connects, now, tries, deadline).now < deadline + limit + RetryMs
    decreases deadline - now
  {
    var a := connects(tries);
    var next := now + a.took + RetryMs;
    if a.outcome.Failed? && a.outcome.errno == ECONNREFUSED && next < deadline {
      AwakenOvershoot(connects, next, tries + 1, deadline, limit);
    } else if a.outcome.Failed? && a.outcome.errno == ECONNREFUSED {
      AwakenOutcomes(connects, next, tries + 1, deadline);
    }
  }
}
