/** The retry decision (rabbitservice.go) on the wrapping uint16 counter, and the
    exact number of attempts a letter that keeps failing gets. */
module Retrying {
  import opened Pipeline
  import opened Publishing

  datatype ServiceError =
    | RetryingLetter(letterId: nat, count: Counter)
    | AutoPublisherShutDown(letterId: nat)
    | RetriesExhausted(letterId: nat)
    | NoCopyOfLetter(letterId: nat)

  /** How often a letter with RetryCount r is attempted when every attempt fails,
      for a MaxRetryCount below 65535. */
  function FailingAttempts(r: Counter, maxRetry: Counter): (n: nat)
    requires maxRetry < 65535
    ensures n > 0
    decreases if r <= maxRetry then maxRetry - r else if r == 65535 then maxRetry + 1 else 0
  {
    if Increment(r) <= maxRetry then 1 + FailingAttempts(Increment(r), maxRetry) else 1
  }

  /** The attempt count is 1 + max(0, M - r) for exactly those letters that do not
      start at 65535; such a letter wraps to 0 and is attempted M + 2 times. */
  lemma {:induction false} FailingAttemptsExactly(r: Counter, maxRetry: Counter)
    requires maxRetry < 65535
    ensures FailingAttempts(r, maxRetry) == 1 + (if maxRetry >= r then maxRetry - r else 0) <==> r < 65535
    ensures r == 65535 ==> FailingAttempts(r, maxRetry) == maxRetry + 2
    decreases if r <= maxRetry then maxRetry - r else if r == 65535 then maxRetry + 1 else 0
  {
    if Increment(r) <= maxRetry {
      FailingAttemptsExactly(Increment(r), maxRetry);
    }
  }

  /** The counter after n failures. */
  function After(r: Counter, n: nat): Counter
  {
    if n == 0 then r else Increment(After(r, n - 1))
  }

  /** The attempts end with the first count above MaxRetryCount. */
  lemma {:induction false} FailingAttemptsIsFirst(r: Counter, maxRetry: Counter, n: nat)
    requires maxRetry < 65535
    ensures After(r, FailingAttempts(r, maxRetry)) > maxRetry
    ensures 0 < n < FailingAttempts(r, maxRetry) ==> After(r, n) <= maxRetry
    decreases if r <= maxRetry then maxRetry - r else if r == 65535 then maxRetry + 1 else 0
  {
    assert After(r, 1) == Increment(After(r, 0));
    if Increment(r) <= maxRetry {
      AfterShift(r, FailingAttempts(Increment(r), maxRetry));
      if n > 1 {
        AfterShift(r, n - 1);
        FailingAttemptsIsFirst(Increment(r), maxRetry, n - 1);
      } else {
        FailingAttemptsIsFirst(Increment(r), maxRetry, 0);
      }
    }
  }

  lemma {:induction false} AfterShift(r: Counter, n: nat)
    ensures After(r, n + 1) == After(Increment(r), n)
  {
    if n > 0 {
      AfterShift(r, n - 1);
    }
  }

  /** A letter that keeps failing is eventually given up exactly when
      MaxRetryCount is below 65535: the counter never exceeds 65535. */
  lemma GivenUpExactly(r: Counter, maxRetry: Counter)
    ensures (exists n: nat :: n > 0 && After(r, n) > maxRetry) <==> maxRetry < 65535
  {
    if maxRetry < 65535 {
      FailingAttemptsIsFirst(r, maxRetry, 0);
    }
  }

  /** A configured MaxRetryCount is kept, and one of 0 stands for 5: so often is a
      letter attempted that keeps failing. */
  lemma ConfiguredAttempts(cacheSize: nat, configured: Counter, r: Counter)
    requires configured < 65535 && r < 65535
    ensures var m := if configured == 0 then 5 else configured;
      FailingAttempts(r, NewConfig(cacheSize, configured).maxRetry) == 1 + if m >= r then m - r else 0
  {
    FailingAttemptsExactly(r, NewConfig(cacheSize, configured).maxRetry);
  }

  /** With the defaults, RetryCount 3 and MaxRetryCount 0, that is three times. */
  lemma DefaultLetterIsTriedThreeTimes(cacheSize: nat)
    ensures FailingAttempts(3, NewConfig(cacheSize, 0).maxRetry) == 3
  {
    ConfiguredAttempts(cacheSize, 0, 3);
  }

  class RabbitService {
    const publisher: Publisher
    const maxRetry: Counter
    var centralErr: seq<ServiceError>

    constructor (publisher: Publisher, configured: Counter)
      ensures this.publisher == publisher && centralErr == []
      ensures maxRetry == MaxRetryOf(configured)
    {
      this.publisher := publisher;
      maxRetry := MaxRetryOf(configured);
      centralErr := [];
    }

    /** The body of the receipt loop. A receipt of the publisher never takes the
        no-copy branch; a failure is reported once, and once more exactly if the
        queue turns out to be closed. It is done unless the requeue waits on a full
        queue. */
    method ProcessReceipt(receipt: PublishReceipt) returns (done: bool)
      modifies this`centralErr, publisher`letters, publisher`sent
      ensures receipt.success ==>
        done && centralErr == old(centralErr) && publisher.letters == old(publisher.letters)
      ensures !receipt.success && receipt.failedLetter.None? ==>
        done && centralErr == old(centralErr) + [NoCopyOfLetter(receipt.letterId)] && publisher.letters == old(publisher.letters)
      ensures !receipt.success && receipt.failedLetter.Some? ==>
        var letter := receipt.failedLetter.value;
        if letter.retryCount > maxRetry then
          && done && centralErr == old(centralErr) + [RetriesExhausted(receipt.letterId)]
          && publisher.letters == old(publisher.letters)
        else
          && done == (publisher.closed || |old(publisher.letters)| < publisher.capacity)
          && centralErr == old(centralErr) + [RetryingLetter(receipt.letterId, letter.retryCount)]
                           + (if publisher.closed then [AutoPublisherShutDown(receipt.letterId)] else [])
          && publisher.letters == old(publisher.letters) + (if done && !publisher.closed then [letter] else [])
      ensures WellFormed(receipt) ==>
        forall e :: e in centralErr && e !in old(centralErr) ==> !e.NoCopyOfLetter?
    {
      if !receipt.success {
        if receipt.failedLetter.Some? {
          var letter := receipt.failedLetter.value;
          if letter.retryCount <= maxRetry {
            centralErr := centralErr + [RetryingLetter(receipt.letterId, letter.retryCount)];
            var sending := publisher.SafeSend(letter);
            if sending.QueueFull? { return false; }
            if sending.QueueClosed? {
              centralErr := centralErr + [AutoPublisherShutDown(receipt.letterId)];
            }
          } else {
            centralErr := centralErr + [RetriesExhausted(receipt.letterId)];
          }
        } else {
          centralErr := centralErr + [NoCopyOfLetter(receipt.letterId)];
        }
      }
      return true;
    }

    /** What the error channel holds after so many failures of one letter. */
    ghost predicate Told(errors: seq<ServiceError>, id: nat, r: Counter, attempts: nat, settled: bool)
    {
      && |errors| == attempts
      && forall k :: 0 <= k < attempts ==>
        errors[k] == if settled && k == attempts - 1 then RetriesExhausted(id) else RetryingLetter(id, After(r, k + 1))
    }

    /** One letter through up to `rounds` turns of the whole pipeline while every
        confirmation times out: it is attempted until its count first exceeds
        MaxRetryCount, reported as retrying after every earlier attempt, with its
        count, and as exhausted once at the end; at a MaxRetryCount of 65535 it is
        still being retried after any number of rounds. */
    method DriveFailingLetter(letter: Letter, rounds: nat) returns (attempts: nat)
      requires publisher.cache != [] && publisher.capacity > 0
      requires publisher.letters == [letter] && publisher.receipts == [] && !publisher.closed
      modifies this`centralErr, publisher, letter`retryCount
      ensures letter.retryCount == After(old(letter.retryCount), attempts) && publisher.receipts == []
      ensures publisher.letters == if attempts > 0 && letter.retryCount > maxRetry then [] else [letter]
      ensures old(centralErr) <= centralErr
      ensures Told(centralErr[|old(centralErr)|..], letter.letterId, old(letter.retryCount), attempts, publisher.letters == [])
      ensures maxRetry == 65535 ==> attempts == rounds
      ensures maxRetry < 65535 ==>
        var n := FailingAttempts(old(letter.retryCount), maxRetry);
        attempts == (if rounds < n then rounds else n) && (publisher.letters == [] <==> rounds >= n)
    {
      attempts := 0;
      ghost var r := letter.retryCount;
      while publisher.letters != [] && attempts < rounds
        invariant publisher.cache != [] && publisher.receipts == [] && !publisher.closed && attempts <= rounds
        invariant letter.retryCount == After(r, attempts)
        invariant publisher.letters == if attempts > 0 && After(r, attempts) > maxRetry then [] else [letter]
        invariant old(centralErr) <= centralErr
        invariant Told(centralErr[|old(centralErr)|..], letter.letterId, r, attempts, publisher.letters == [])
        invariant forall k :: 0 < k < attempts ==> After(r, k) <= maxRetry
        decreases rounds - attempts
      {
        publisher.letters := [];
        var result := publisher.PublishWithConfirmation(letter, [publisher.cache], [Timeout]);
        assert [Timeout][..1] == [Timeout] && Attempts([Timeout]) == 1;
        var receipt := publisher.receipts[0];
        publisher.receipts := publisher.receipts[1..];
        var done := ProcessReceipt(receipt);
        attempts := attempts + 1;
      }
      if maxRetry < 65535 {
        FailingAttemptsIsFirst(r, maxRetry, attempts);
      }
    }
  }
}
