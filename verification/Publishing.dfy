/** The sequential code of one publish goroutine, one receipt and one batch of
    sends: PublishWithConfirmation, publishReceipt, QueueLetters (publisher.go),
    the body of processPublishReceipts (rabbitservice.go) and PublishReceipt
    (message.go). The broker's answers are an input sequence. */
module Publishing {
  import opened Sequences
  import opened Pipeline

  /** What the broker, the clock and the letter's context do to one attempt. */
  datatype Outcome = PublishFailed | Nack | Ack | Timeout | Cancel

  datatype PublishError = ConfirmationTimeout(letterId: nat) | ConfirmationCancel(letterId: nat)

  /** A *Letter: its RetryCount is shared by everyone who holds it. */
  class Letter {
    const letterId: nat
    var retryCount: Counter

    constructor (letterId: nat)
      ensures this.letterId == letterId && retryCount == 3
    {
      this.letterId := letterId;
      retryCount := 3;   // defaultOpts
    }
  }

  datatype PublishReceipt = PublishReceipt(
    letterId: nat, failedLetter: Option<Letter>, success: bool, error: Option<PublishError>)

  /** What every receipt of the publisher satisfies. */
  predicate WellFormed(r: PublishReceipt)
  {
    (r.success <==> r.failedLetter.None?) && (r.success <==> r.error.None?)
  }

  /** The receipt of one finished publication of the letter. */
  predicate Reports(r: PublishReceipt, letter: Letter, error: Option<PublishError>)
  {
    WellFormed(r) && r.letterId == letter.letterId && r.error == error && (!r.success ==> r.failedLetter == Some(letter))
  }

  datatype Text = PublishSuccessful(letterId: nat) | PublishUnsuccessful(letterId: nat, reason: PublishError)

  /** ToString dereferences Error unless Success holds; a well-formed receipt never
      makes it dereference nil. */
  function ToString(r: PublishReceipt): (text: Text)
    requires WellFormed(r)
    ensures text.letterId == r.letterId && (text.PublishSuccessful? <==> r.success)
    ensures !r.success ==> text.reason == r.error.value
  {
    if r.success then PublishSuccessful(r.letterId) else PublishUnsuccessful(r.letterId, r.error.value)
  }

  // ---------- The trace of the confirmation loop ----------

  predicate Final(o: Outcome) { o.Ack? || o.Timeout? || o.Cancel? }

  /** How many attempts the loop makes on these outcomes: up to and including the
      first final one, or all of them. */
  function Attempts(outcomes: seq<Outcome>): (n: nat)
    ensures n <= |outcomes|
    ensures forall i :: 0 <= i < n - 1 ==> !Final(outcomes[i])
    ensures n < |outcomes| ==> n > 0 && Final(outcomes[n - 1])
    ensures outcomes != [] ==> n > 0
  {
    if outcomes == [] then 0
    else if Final(outcomes[0]) then 1
    else 1 + Attempts(outcomes[1..])
  }

  predicate Returns(outcomes: seq<Outcome>) { outcomes != [] && Final(outcomes[Attempts(outcomes) - 1]) }

  datatype PoolEvent = Borrowed(channel: nat) | Returned(channel: nat, erred: bool)

  /** How many borrows are served, if each finds the cache as given: one that finds
      it empty for good waits forever. */
  function Served(caches: seq<seq<nat>>): (n: nat)
    ensures n <= |caches|
    ensures forall i :: 0 <= i < n ==> caches[i] != []
    ensures n < |caches| ==> caches[n] == []
  {
    if caches == [] || caches[0] == [] then 0 else 1 + Served(caches[1..])
  }

  /** The borrows and returns of the attempts, in order. */
  function Ledger(caches: seq<seq<nat>>, outcomes: seq<Outcome>): seq<PoolEvent>
    requires |outcomes| <= Served(caches)
  {
    if outcomes == [] then []
    else
      var n := |outcomes| - 1;
      Ledger(caches, outcomes[..n]) + [Borrowed(caches[n][0]), Returned(caches[n][0], outcomes[n].PublishFailed?)]
  }

  /** Every attempt borrows one channel and returns that channel before anything
      else, erred exactly on a publish error. */
  lemma {:induction false} LedgerBalances(caches: seq<seq<nat>>, outcomes: seq<Outcome>, i: nat)
    requires i < |outcomes| <= Served(caches)
    ensures |Ledger(caches, outcomes)| == 2 * |outcomes|
    ensures Ledger(caches, outcomes)[2 * i] == Borrowed(caches[i][0])
    ensures Ledger(caches, outcomes)[2 * i + 1] == Returned(caches[i][0], outcomes[i].PublishFailed?)
    decreases |outcomes|
  {
    var n := |outcomes| - 1;
    if n > 0 {
      LedgerBalances(caches, outcomes[..n], if i < n then i else 0);
    }
  }

  /** One attempt more. */
  lemma LedgerNext(caches: seq<seq<nat>>, trace: seq<Outcome>, i: nat)
    requires i < |trace| <= Served(caches)
    ensures Ledger(caches, trace[..i + 1]) ==
      Ledger(caches, trace[..i]) + [Borrowed(caches[i][0]), Returned(caches[i][0], trace[i].PublishFailed?)]
  {
    assert trace[..i + 1][..i] == trace[..i];
  }

  // ---------- The publisher ----------

  /** One accepted send on the letter queue. */
  datatype Send = Send(letter: Letter, mine: bool)

  /** The accepted sends of the caller we follow, in order. */
  function Mine(sent: seq<Send>): seq<Letter>
  {
    if sent == [] then []
    else Mine(sent[..|sent| - 1]) + if sent[|sent| - 1].mine then [sent[|sent| - 1].letter] else []
  }

  function OthersSend(letters: seq<Letter>): seq<Send> { seq(|letters|, i requires 0 <= i < |letters| => Send(letters[i], false)) }

  lemma MineNext(sent: seq<Send>, x: Send)
    ensures Mine(sent + [x]) == Mine(sent) + if x.mine then [x.letter] else []
  {
    assert (sent + [x])[..|sent|] == sent;
  }

  lemma {:induction false} OthersAreNotMine(sent: seq<Send>, letters: seq<Letter>)
    ensures Mine(sent + OthersSend(letters)) == Mine(sent)
  {
    if letters == [] {
      assert sent + OthersSend(letters) == sent;
    } else {
      hide Mine;
      var n := |letters| - 1;
      var front, last := OthersSend(letters[..n]), Send(letters[n], false);
      OthersAreNotMine(sent, letters[..n]);
      assert OthersSend(letters) == front + [last];
      assert sent + (front + [last]) == (sent + front) + [last];
      MineNext(sent + front, last);
    }
  }

  /** What others do before a send goes through: the dispatcher takes letters, other
      producers send theirs, the dispatcher closes the queue. */
  datatype Move = Move(takes: nat, others: seq<Letter>, closes: bool)

  /** The dispatcher closes the queue before none of the first n sends. */
  ghost predicate StaysOpen(moves: nat -> Move, n: nat) { forall i :: 0 <= i < n ==> !moves(i).closes }

  /** A send on the open queue goes through or, while it is full, waits; on the closed
      queue it panics, and safeSend answers false. */
  datatype Sending = Queued | QueueClosed | QueueFull

  datatype Publication = StillTrying | Finished(error: Option<PublishError>)

  class Publisher {
    var cache: seq<nat>                  // ConnectionPool.channels
    var receipts: seq<PublishReceipt>    // publishReceipts
    const capacity: nat                  // of the letter queue
    var letters: seq<Letter>             // the letter queue
    var closed: bool
    ghost var ledger: seq<PoolEvent>     // every borrow from and return to the cache
    ghost var sent: seq<Send>            // every send the letter queue accepted

    constructor (cache: seq<nat>, capacity: nat)
      ensures this.cache == cache && this.capacity == capacity
      ensures receipts == [] && letters == [] && !closed && ledger == [] && sent == []
    {
      this.cache, this.capacity := cache, capacity;
      receipts, letters, closed := [], [], false;
      ledger, sent := [], [];
    }

    /** One receipt; a failure carries the letter and counts against it. */
    method SendPublishReceipt(letter: Letter, err: Option<PublishError>)
      modifies this`receipts, letter`retryCount
      ensures |receipts| == |old(receipts)| + 1 && receipts[..|old(receipts)|] == old(receipts)
      ensures Reports(receipts[|old(receipts)|], letter, err)
      ensures letter.retryCount == if err.Some? then Increment(old(letter.retryCount)) else old(letter.retryCount)
    {
      var receipt := PublishReceipt(letter.letterId, None, err.None?, err);
      if !receipt.success {
        receipt := receipt.(failedLetter := Some(letter));
        letter.retryCount := Increment(letter.retryCount);
      }
      receipts := receipts + [receipt];
    }

    /** The verdict of waitPublishConfirmation: acked, and the error if any. */
    method WaitConfirmation(letter: Letter, outcome: Outcome) returns (acked: bool, err: Option<PublishError>)
      requires !outcome.PublishFailed?
      ensures acked <==> outcome.Ack?
      ensures err.Some? <==> outcome.Timeout? || outcome.Cancel?
      ensures outcome.Timeout? ==> err == Some(ConfirmationTimeout(letter.letterId))
      ensures outcome.Cancel? ==> err == Some(ConfirmationCancel(letter.letterId))
    {
      match outcome
      case Cancel => acked, err := false, Some(ConfirmationCancel(letter.letterId));
      case Timeout => acked, err := false, Some(ConfirmationTimeout(letter.letterId));
      case _ => acked, err := outcome.Ack?, None;
    }

    /** Borrow a channel, publish on it, give it back: the head of the cache goes to
        its tail, and the return is erred exactly on a publish error. */
    method TryPublish(outcome: Outcome) returns (failed: bool)
      requires cache != []
      modifies this`cache, this`ledger
      ensures failed == outcome.PublishFailed?
      ensures cache == old(cache)[1..] + [old(cache)[0]]
      ensures ledger == old(ledger) + [Borrowed(old(cache)[0]), Returned(old(cache)[0], failed)]
    {
      var channel := cache[0];
      cache := cache[1..];
      failed := outcome.PublishFailed?;
      cache := cache + [channel];
      ledger := ledger + [Borrowed(channel), Returned(channel, failed)];
    }

    /** The confirmation loop refines its trace: it stops at the first final
        outcome, emits exactly one receipt, successful exactly on an ack and otherwise
        with the error of that outcome and this letter, and counts a failure exactly once. `caches` is what the other users have made of the cache
        each time the loop comes to borrow; on an empty one it waits. Until a final
        outcome it is still trying and has emitted nothing. */
    method PublishWithConfirmation(letter: Letter, caches: seq<seq<nat>>, outcomes: seq<Outcome>) returns (result: Publication)
      requires |caches| == |outcomes|
      modifies this`cache, this`receipts, this`ledger, letter`retryCount
      ensures var trace := outcomes[..Served(caches)];
        && ledger == old(ledger) + Ledger(caches, trace[..Attempts(trace)])
        && (result.Finished? <==> Returns(trace))
      ensures var trace := outcomes[..Served(caches)]; !Returns(trace) ==>
        && receipts == old(receipts) && letter.retryCount == old(letter.retryCount)
        && (|trace| < |outcomes| ==> cache == [])
      ensures var trace := outcomes[..Served(caches)]; Returns(trace) ==>
        var n := Attempts(trace) - 1;
        && (result.error.None? <==> trace[n].Ack?)
        && (trace[n].Timeout? ==> result.error == Some(ConfirmationTimeout(letter.letterId)))
        && (trace[n].Cancel? ==> result.error == Some(ConfirmationCancel(letter.letterId)))
        && cache == caches[n][1..] + [caches[n][0]]
        && |receipts| == |old(receipts)| + 1 && receipts[..|old(receipts)|] == old(receipts)
        && Reports(receipts[|old(receipts)|], letter, result.error)
        && letter.retryCount == if trace[n].Ack? then old(letter.retryCount) else Increment(old(letter.retryCount))
    {
      ghost var trace := outcomes[..Served(caches)];
      var i := 0;
      assert Ledger(caches, trace[..0]) == [];
      hide Ledger, Attempts, Served;
      while i < |outcomes|
        invariant 0 <= i <= |trace| && i <= Attempts(trace)
        invariant forall j :: 0 <= j < i ==> !Final(trace[j])
        invariant ledger == old(ledger) + Ledger(caches, trace[..i])
        invariant receipts == old(receipts) && letter.retryCount == old(letter.retryCount)
      {
        cache := caches[i];
        if cache == [] {
          assert i == |trace| == Attempts(trace);
          return StillTrying;
        }
        var failed := TryPublish(outcomes[i]);
        LedgerNext(caches, trace, i);
        MoreAttempts(trace, i);
        i := i + 1;
        if failed { continue; }
        var acked, err := WaitConfirmation(letter, outcomes[i - 1]);
        if !acked && err.None? { continue; }
        assert Attempts(trace) == i && trace[i - 1] == outcomes[i - 1];
        SendPublishReceipt(letter, err);
        return Finished(err);
      }
      assert i == |trace| == Attempts(trace);
      return StillTrying;
    }

    /** safeSend: refused exactly if the queue is closed, and waiting exactly if it is
        open and full; otherwise the letter is in it. */
    method SafeSend(letter: Letter) returns (sending: Sending)
      modifies this`letters, this`sent
      ensures sending == if closed then QueueClosed else if |old(letters)| >= capacity then QueueFull else Queued
      ensures letters == if sending.Queued? then old(letters) + [letter] else old(letters)
      ensures sent == if sending.Queued? then old(sent) + [Send(letter, true)] else old(sent)
    {
      if closed { return QueueClosed; }
      if |letters| >= capacity { return QueueFull; }
      letters := letters + [letter];
      sent := sent + [Send(letter, true)];
      return Queued;
    }

    /** The others' move: none of it is a send of ours. */
    method Interfere(move: Move)
      modifies this`letters, this`closed, this`sent
      ensures closed == (old(closed) || move.closes)
      ensures Mine(sent) == Mine(old(sent))
    {
      letters := letters[if move.takes <= |letters| then move.takes else |letters|..];
      var room := if closed || |letters| >= capacity then 0 else capacity - |letters|;
      var others := move.others[..if room <= |move.others| then room else |move.others|];
      letters := letters + others;
      OthersAreNotMine(sent, others);
      sent := sent + OthersSend(others);
      closed := closed || move.closes;
    }

    /** However others interfere, exactly a prefix of the batch is accepted, in order.
        All of it if the answer is true; it is false exactly if the queue was closed
        or becomes so before the first letter that is not accepted; otherwise that
        letter waits on the full queue. */
    method QueueLetters(batch: seq<Letter>, moves: nat -> Move) returns (answer: Sending, accepted: nat)
      modifies this`letters, this`closed, this`sent
      ensures accepted <= |batch|
      ensures Mine(sent) == Mine(old(sent)) + batch[..accepted]
      ensures answer.Queued? <==> accepted == |batch|
      ensures answer.QueueClosed? <==> accepted < |batch| && (old(closed) || !StaysOpen(moves, accepted + 1))
      ensures answer.QueueFull? ==> !closed && |letters| >= capacity
    {
      accepted := 0;
      for i := 0 to |batch|
        invariant accepted == i
        invariant Mine(sent) == Mine(old(sent)) + batch[..i]
        invariant i > 0 ==> !old(closed)
        invariant StaysOpen(moves, i) && closed == old(closed)
      {
        Interfere(moves(i));
        MineNext(sent, Send(batch[i], true));
        var sending := SafeSend(batch[i]);
        if !sending.Queued? { return sending, i; }
        assert batch[..i + 1] == batch[..i] + [batch[i]];
        accepted := i + 1;
      }
      assert batch[..|batch|] == batch;
      return Queued, |batch|;
    }
  }

  lemma {:induction false} MoreAttempts(outcomes: seq<Outcome>, i: nat)
    requires i < |outcomes| && forall j :: 0 <= j < i ==> !Final(outcomes[j])
    ensures i + 1 <= Attempts(outcomes)
    ensures Final(outcomes[i]) ==> Attempts(outcomes) == i + 1
  {
    if i > 0 {
      MoreAttempts(outcomes[1..], i - 1);
    }
  }
}
