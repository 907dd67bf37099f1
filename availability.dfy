/** Waiting for a service to come up: poll its availability at most a given number of
    times, pausing between polls but not after the last one. Also the counter-driven
    mock service used to exercise the loop. */
module Availability {
  import opened Wrappers
  import opened Retry
  import opened CoreApi

  /** The observable steps of a wait: a poll, or a pause of the given length in ms. */
  datatype PollEvent = Poll | Sleep(millis: nat)

  datatype AvailabilityError = NeverAvailable(serviceId: ServiceId, maxNumRetries: int, timeBetweenPollsMillis: nat)

  /** n polls with a pause between each two consecutive ones. */
  function PollTrace(n: nat, millis: nat): seq<PollEvent>
  {
    if n == 0 then [] else if n == 1 then [Poll] else PollTrace(n - 1, millis) + [Sleep(millis), Poll]
  }

  function CountSleeps(events: seq<PollEvent>): nat
  {
    if events == [] then 0 else CountSleeps(events[..|events| - 1]) + (if events[|events| - 1].Sleep? then 1 else 0)
  }

  function CountPolls(events: seq<PollEvent>): nat
  {
    if events == [] then 0 else CountPolls(events[..|events| - 1]) + (if events[|events| - 1].Poll? then 1 else 0)
  }

  lemma CountSnoc(events: seq<PollEvent>, e: PollEvent)
    ensures CountSleeps(events + [e]) == CountSleeps(events) + (if e.Sleep? then 1 else 0)
    ensures CountPolls(events + [e]) == CountPolls(events) + (if e.Poll? then 1 else 0)
  {
    assert (events + [e])[..|events + [e]| - 1] == events;
  }

  /** A wait with n polls alternates poll, sleep, poll, ..., poll: it starts and ends
      with a poll, so every sleep lies between two polls. */
  lemma {:induction false} PollTraceAlternates(n: nat, millis: nat)
    ensures |PollTrace(n, millis)| == if n == 0 then 0 else 2 * n - 1
    ensures forall i | 0 <= i < |PollTrace(n, millis)| ::
      PollTrace(n, millis)[i] == if i % 2 == 0 then Poll else Sleep(millis)
    decreases n
  {
    if n > 1 {
      PollTraceAlternates(n - 1, millis);
    }
  }

  /** A wait with n polls sleeps n - 1 times. */
  lemma {:induction false} PollTraceCounts(n: nat, millis: nat)
    ensures CountPolls(PollTrace(n, millis)) == n
    ensures CountSleeps(PollTrace(n, millis)) == if n == 0 then 0 else n - 1
    decreases n
  {
    if n == 1 {
      assert PollTrace(1, millis) == [] + [Poll];
      CountSnoc([], Poll);
    } else if n > 1 {
      var prev := PollTrace(n - 1, millis);
      PollTraceCounts(n - 1, millis);
      CountSnoc(prev, Sleep(millis));
      CountSnoc(prev + [Sleep(millis)], Poll);
      assert PollTrace(n, millis) == (prev + [Sleep(millis)]) + [Poll];
    }
  }

  /** DefaultAvailabilityChecker.WaitForStartup: `isAvailable(k)` is the answer of the
      k-th poll (from 0). Polls until an answer is true, at most `maxNumRetries` times. */
  method WaitForStartup(serviceId: ServiceId, isAvailable: nat -> bool, timeBetweenPollsMillis: nat, maxNumRetries: int)
    returns (r: Result<(), AvailabilityError>, events: seq<PollEvent>)
    ensures r.Ok? <==> FirstSuccess(isAvailable, maxNumRetries).Some?
    ensures r.Err? ==> r.error == NeverAvailable(serviceId, maxNumRetries, timeBetweenPollsMillis)
    ensures events == PollTrace(AttemptsMade(isAvailable, maxNumRetries), timeBetweenPollsMillis)
  {
    events := [];
    var i := 0;
    while i < maxNumRetries
      invariant 0 <= i && (maxNumRetries > 0 ==> i <= maxNumRetries) && (maxNumRetries <= 0 ==> i == 0)
      invariant forall j :: 0 <= j < i ==> !isAvailable(j)
      invariant events == PollTrace(i, timeBetweenPollsMillis) + (if 0 < i < maxNumRetries then [Sleep(timeBetweenPollsMillis)] else [])
    {
      ghost var before := events;
      events := events + [Poll];
      if isAvailable(i) {
        FirstSuccessUnique(isAvailable, maxNumRetries, i);
        assert i > 0 ==> before == PollTrace(i, timeBetweenPollsMillis) + [Sleep(timeBetweenPollsMillis)];
        assert events == PollTrace(i + 1, timeBetweenPollsMillis);
        return Ok(()), events;
      }
      if i < maxNumRetries - 1 {
        events := events + [Sleep(timeBetweenPollsMillis)];
      }
      i := i + 1;
    }
    FirstSuccessSpec(isAvailable, maxNumRetries);
    assert AttemptsMade(isAvailable, maxNumRetries) == i;
    r := Err(NeverAvailable(serviceId, maxNumRetries, timeBetweenPollsMillis));
  }

  /** Reports available from the given check on: the n-th call (counting from 1)
      and every later one return true. */
  class MockService {
    const becomesAvailableOnCheck: int
    var callsToIsAvailable: nat

    constructor (becomesAvailableOnCheck: int)
      ensures this.becomesAvailableOnCheck == becomesAvailableOnCheck && callsToIsAvailable == 0
    {
      this.becomesAvailableOnCheck := becomesAvailableOnCheck;
      callsToIsAvailable := 0;
    }

    method IsAvailable() returns (available: bool)
      modifies this
      ensures callsToIsAvailable == old(callsToIsAvailable) + 1
      ensures available == MockAnswers(becomesAvailableOnCheck)(old(callsToIsAvailable))
    {
      callsToIsAvailable := callsToIsAvailable + 1;
      available := callsToIsAvailable >= becomesAvailableOnCheck;
    }
  }

  /** The answers a fresh mock gives: poll k (from 0) is the (k+1)-th call. */
  function MockAnswers(becomesAvailableOnCheck: int): nat -> bool
  {
    k => k + 1 >= becomesAvailableOnCheck
  }

  function Max(a: int, b: int): int { if a >= b then a else b }

  /** Once a mock has answered true it keeps answering true. */
  lemma MockAnswersMonotone(n: int, k: nat, j: nat)
    requires k <= j && MockAnswers(n)(k)
    ensures MockAnswers(n)(j)
  {
  }

  /** Exactly the first max(n, 1) - 1 calls to a mock return false. */
  lemma MockFirstTrue(n: int, k: nat)
    ensures MockAnswers(n)(k) <==> k + 1 >= Max(n, 1)
  {
  }

  /** Waiting on a fresh MockService(n) succeeds exactly when maxNumRetries >= max(n, 1),
      and then uses exactly max(n, 1) polls; otherwise it uses all of them. */
  lemma MockWaitOutcome(n: int, maxNumRetries: int)
    ensures FirstSuccess(MockAnswers(n), maxNumRetries).Some? <==> maxNumRetries >= Max(n, 1)
    ensures AttemptsMade(MockAnswers(n), maxNumRetries) ==
      if maxNumRetries >= Max(n, 1) then Max(n, 1) else Max(maxNumRetries, 0)
  {
    var ok := MockAnswers(n);
    var k: nat := Max(n, 1) - 1;
    forall j | 0 <= j < k ensures !ok(j) { }
    assert ok(k);
    if maxNumRetries >= Max(n, 1) {
      FirstSuccessUnique(ok, maxNumRetries, k);
    } else {
      FirstSuccessSpec(ok, maxNumRetries);
    }
  }

  /** A service that is never available, polled 3 times 200 ms apart, gives an error
      after 3 polls and 2 sleeps. */
  lemma NeverAvailableThreePolls()
    ensures FirstSuccess(k => false, 3).None?
    ensures AttemptsMade(k => false, 3) == 3
    ensures CountSleeps(PollTrace(3, 200)) == 2
  {
    FirstSuccessSpec(k => false, 3);
    PollTraceCounts(3, 200);
  }
}
