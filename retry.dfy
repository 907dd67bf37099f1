/** The specification shared by the bounded retry loops of the core (availability polling,
    suite registration, the API connection): attempt k (counting from 0) succeeds when
    `ok(k)`; a loop allowed `bound` attempts stops at the first success. */
module Retry {
  import opened Wrappers

  /** The index of the first successful attempt in [from, bound), if any. */
  function FirstSuccessFrom(ok: nat -> bool, from: nat, bound: int): Option<nat>
    decreases bound - from
  {
    if from >= bound then None
    else if ok(from) then Some(from)
    else FirstSuccessFrom(ok, from + 1, bound)
  }

  /** The index of the first successful attempt among the first `bound`, if any. */
  function FirstSuccess(ok: nat -> bool, bound: int): Option<nat>
  {
    FirstSuccessFrom(ok, 0, bound)
  }

  /** How many attempts a loop that stops at the first success makes. */
  function AttemptsMade(ok: nat -> bool, bound: int): nat
  {
    match FirstSuccess(ok, bound)
    case Some(k) => k + 1
    case None => if bound > 0 then bound else 0
  }

  lemma {:induction false} FirstSuccessFromSpec(ok: nat -> bool, from: nat, bound: int)
    ensures FirstSuccessFrom(ok, from, bound).Some? ==>
      var k := FirstSuccessFrom(ok, from, bound).value;
      from <= k < bound && ok(k) && forall j :: from <= j < k ==> !ok(j)
    ensures FirstSuccessFrom(ok, from, bound).None? ==> forall j :: from <= j < bound ==> !ok(j)
    decreases bound - from
  {
    if from < bound && !ok(from) {
      FirstSuccessFromSpec(ok, from + 1, bound);
    }
  }

  /** The first success is the least successful index below the bound, and there is
      none exactly when every attempt below the bound fails. */
  lemma FirstSuccessSpec(ok: nat -> bool, bound: int)
    ensures FirstSuccess(ok, bound).Some? ==>
      var k := FirstSuccess(ok, bound).value;
      k < bound && ok(k) && forall j :: 0 <= j < k ==> !ok(j)
    ensures FirstSuccess(ok, bound).None? <==> forall j :: 0 <= j < bound ==> !ok(j)
  {
    FirstSuccessFromSpec(ok, 0, bound);
  }

  /** Any successful index that is least below the bound is the first success. */
  lemma FirstSuccessUnique(ok: nat -> bool, bound: int, k: nat)
    requires k < bound && ok(k)
    requires forall j :: 0 <= j < k ==> !ok(j)
    ensures FirstSuccess(ok, bound) == Some(k)
  {
    FirstSuccessSpec(ok, bound);
    if FirstSuccess(ok, bound).Some? {
      var f := FirstSuccess(ok, bound).value;
      assert !(f < k) && !(k < f);
    }
  }

  /** A loop never makes more attempts than it is allowed. */
  lemma AttemptsBounded(ok: nat -> bool, bound: int)
    ensures AttemptsMade(ok, bound) <= if bound > 0 then bound else 0
  {
    FirstSuccessSpec(ok, bound);
  }

  /** The observable steps of a retry loop that pauses after every failed attempt. */
  datatype RetryEvent = Attempt(index: nat) | Pause(millis: nat)

  /** n failed attempts, each followed by a pause. */
  function FailedAttempts(n: nat, millis: nat): seq<RetryEvent>
  {
    if n == 0 then [] else FailedAttempts(n - 1, millis) + [Attempt(n - 1), Pause(millis)]
  }

  /** The steps of a loop allowed `bound` attempts that stops at the first success. */
  function RetryTrace(ok: nat -> bool, bound: nat, millis: nat): seq<RetryEvent>
  {
    match FirstSuccess(ok, bound)
    case Some(k) => FailedAttempts(k, millis) + [Attempt(k)]
    case None => FailedAttempts(bound, millis)
  }

  /** Failed attempts alternate attempt j and a pause, in index order. */
  lemma {:induction false} FailedAttemptsShape(n: nat, millis: nat)
    ensures |FailedAttempts(n, millis)| == 2 * n
    ensures forall j :: 0 <= j < n ==> FailedAttempts(n, millis)[2 * j] == Attempt(j) && FailedAttempts(n, millis)[2 * j + 1] == Pause(millis)
    decreases n
  {
    if n > 0 {
      FailedAttemptsShape(n - 1, millis);
    }
  }

  /** A retry loop attempts 0, 1, ... in order, pauses after every failed attempt
      (also after the last allowed one) and never after the successful one. */
  lemma RetryTraceShape(ok: nat -> bool, bound: nat, millis: nat)
    ensures var t := RetryTrace(ok, bound, millis);
      && |t| == (if FirstSuccess(ok, bound).Some? then 2 * AttemptsMade(ok, bound) - 1 else 2 * bound)
      && (forall j :: 0 <= j < AttemptsMade(ok, bound) ==> t[2 * j] == Attempt(j))
      && (forall j :: 0 <= j < AttemptsMade(ok, bound) && 2 * j + 1 < |t| ==> t[2 * j + 1] == Pause(millis))
      && (FirstSuccess(ok, bound).Some? ==> t[|t| - 1] == Attempt(FirstSuccess(ok, bound).value))
      && (FirstSuccess(ok, bound).None? && bound > 0 ==> t[|t| - 1] == Pause(millis))
  {
    match FirstSuccess(ok, bound)
    case Some(k) => FailedAttemptsShape(k, millis);
    case None => FailedAttemptsShape(bound, millis);
  }

  /** A bounded loop that makes attempt k while `ok(k)` fails and pauses `millis` ms
      after each failure, giving up after `bound` attempts. */
  method RetryEveryFailure(ok: nat -> bool, bound: nat, millis: nat) returns (success: Option<nat>, events: seq<RetryEvent>)
    ensures success == FirstSuccess(ok, bound)
    ensures events == RetryTrace(ok, bound, millis)
  {
    events := [];
    var attempts: nat := 0;
    while true
      invariant attempts <= bound
      invariant forall j :: 0 <= j < attempts ==> !ok(j)
      invariant events == FailedAttempts(attempts, millis)
      decreases bound - attempts
    {
      if attempts >= bound {
        FirstSuccessSpec(ok, bound);
        return None, events;
      }
      events := events + [Attempt(attempts)];
      if ok(attempts) {
        FirstSuccessUnique(ok, bound, attempts);
        return Some(attempts), events;
      }
      events := events + [Pause(millis)];
      attempts := attempts + 1;
    }
  }

  /** Failed attempts only make attempts below n and pause for `millis`. */
  lemma {:induction false} FailedAttemptsEvents(n: nat, millis: nat)
    ensures forall e :: e in FailedAttempts(n, millis) ==> (e.Attempt? ==> e.index < n) && (e.Pause? ==> e.millis == millis)
    decreases n
  {
    if n > 0 {
      FailedAttemptsEvents(n - 1, millis);
    }
  }

  /** Every attempt of a retry loop is below the number of attempts made, which is at
      most the bound, and every pause lasts `millis`. */
  lemma RetryTraceEvents(ok: nat -> bool, bound: nat, millis: nat)
    ensures AttemptsMade(ok, bound) <= bound
    ensures forall e :: e in RetryTrace(ok, bound, millis) ==>
      (e.Attempt? ==> e.index < AttemptsMade(ok, bound)) && (e.Pause? ==> e.millis == millis)
  {
    AttemptsBounded(ok, bound);
    match FirstSuccess(ok, bound)
    case Some(k) => FailedAttemptsEvents(k, millis);
    case None => FailedAttemptsEvents(bound, millis);
  }
}
