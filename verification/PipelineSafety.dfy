/** Safety of the pipeline in every reachable state: no letter is lost or duplicated,
    every failure is reported, the cache never overflows, the auto-publisher leaves
    channels to others, and a stop drains. */
module PipelineSafety {
  import opened Sequences
  import opened Pipeline
  import opened PipelineConservation

  // ---------- Letter conservation ----------

  /** Tickets are unique, so an issued entry is counted once. */
  lemma {:induction false} CountIssued(issued: seq<Entry>, e: Entry)
    requires forall i :: 0 <= i < |issued| ==> issued[i].ticket == i
    ensures Sum(issued, Hits(One(e))) == if e in issued then 1 else 0
  {
    if issued != [] {
      var n := |issued| - 1;
      CountIssued(issued[..n], e);
      assert issued == issued[..n] + [issued[n]];
    }
  }

  /** In every reachable state an accepted entry is in exactly one of the queue,
      the dispatcher's hand, a publish task, a receipt goroutine, the receipt
      channel, the processor's hand, confirmed, exhausted or refused; nothing
      else is in any of them. */
  lemma EntryInExactlyOnePlace(c: Config, s: State, e: Entry)
    requires Reachable(c, s)
    ensures InPlaces(One(e), s) == if e in s.log.issued then 1 else 0
  {
    ReachableInv(c, s);
    assert Conserved(One(e), s);
    CountIssued(s.log.issued, e);
  }

  /** Between receipts, the failed receipts of an entry and its reports agree one
      for one, with a further report exactly for a requeue that met a closed queue. */
  lemma EveryFailureIsReported(c: Config, s: State, e: Entry)
    requires Reachable(c, s) && s.processor.Idle?
    ensures Said(s, RetryReports(e)) + Said(s, ExhaustedReports(e)) == Sum(s.log.failed, Hits(One(e)))
    ensures Said(s, RefusedReports(e)) == Sum(s.log.bounced, Hits(One(e)))
    ensures Sum(s.log.bounced, Hits(One(e))) == Sum(s.refused, Hits(One(e))) <= 1
    ensures s.log.bounced != [] ==> s.closed
  {
    ReachableInv(c, s);
    assert Reported(e, s);
    EntryInExactlyOnePlace(c, s, e);
  }

  /** An entry is confirmed at most once, and only after the broker acknowledged
      it; once its receipts are processed, exactly then. */
  lemma ConfirmedMeansAcked(c: Config, s: State, e: Entry)
    requires Reachable(c, s)
    ensures Sum(s.confirmed, Hits(One(e))) <= Sum(s.log.acked, Hits(One(e))) <= 1
    ensures s.receipts == [] && (forall j :: 0 <= j < |s.senders| ==> s.senders[j].Sent?) ==>
      Sum(s.confirmed, Hits(One(e))) == Sum(s.log.acked, Hits(One(e)))
  {
    ReachableInv(c, s);
    assert Acknowledged(One(e), s);
    EntryInExactlyOnePlace(c, s, e);
    SumBelow(s.senders, SenderAcked(One(e)), SenderHits(One(e)));
    SumBelow(s.receipts, ReceiptAcked(One(e)), ReceiptHits(One(e)));
    if forall j :: 0 <= j < |s.senders| ==> s.senders[j].Sent? {
      SumZero(s.senders, SenderAcked(One(e)));
    }
  }

  // ---------- The channel cache ----------

  lemma {:induction false} CountAll(xs: seq<nat>)
    ensures Sum(xs, ChannelHits(Every)) == |xs|
  {
    if xs != [] {
      CountAll(xs[..|xs| - 1]);
    }
  }

  /** Cached, borrowed and shut-down channels are exactly the IDs below
      MaxCacheChannelCount, each once; a channel from GetTransientChannel, whose
      ID is 0 as well, never adds to them. */
  lemma CacheIsConserved(c: Config, s: State, id: nat)
    requires Reachable(c, s)
    ensures InChannels(WithId(id), s) == if id < c.cacheSize then 1 else 0
    ensures |s.pool.cache| + Sum(s.tasks, TaskChannels(Every)) + Sum(s.pool.clients, ClientChannels(Every))
            + |s.pool.shut| == c.cacheSize
  {
    ReachableInv(c, s);
    assert CacheKept(c, WithId(id), s) && CacheKept(c, Every, s);
    CountUpto(c.cacheSize, id);
    SumSame(Upto(c.cacheSize), ChannelHits(WithId(id)), Is(id));
    CountAll(Upto(c.cacheSize));
    CountAll(s.pool.cache);
    CountAll(s.pool.shut);
  }

  /** Whoever holds a cached channel can return it: the send never blocks. */
  lemma ReturnNeverBlocks(c: Config, s: State, i: nat, erred: bool)
    requires Reachable(c, s)
    ensures i < |s.tasks| && s.tasks[i].Giving? ==> Enabled(c, s, GiveBack(i))
    ensures i < |s.pool.clients| && s.pool.clients[i].Holds? ==> Enabled(c, s, ClientReturn(i, erred))
  {
    CacheIsConserved(c, s, 0);
    if i < |s.tasks| && s.tasks[i].Giving? {
      SumPart(s.tasks, i, TaskChannels(Every));
    }
    if i < |s.pool.clients| && s.pool.clients[i].Holds? && s.pool.clients[i].managed {
      SumPart(s.pool.clients, i, ClientChannels(Every));
    }
  }

  /** However the runs interleave, the auto-publisher leaves at least (C-1)/2
      cached channels to the other users. */
  lemma AutoPublisherShare(c: Config, s: State)
    requires Reachable(c, s)
    ensures Sum(s.tasks, TaskChannels(Every)) <= Sum(s.tasks, Live) <= c.cacheSize / 2 + 1
    ensures c.cacheSize >= 1 ==>
      |s.pool.cache| + Sum(s.pool.clients, ClientChannels(Every)) + |s.pool.shut| >= (c.cacheSize - 1) / 2
    ensures s.dispatcher.InHand? ==> (!Enabled(c, s, Dispatch) <==> Sum(s.tasks, Live) == c.cacheSize / 2 + 1)
  {
    ReachableInv(c, s);
    SumBelow(s.tasks, TaskChannels(Every), Live);
    CacheIsConserved(c, s, 0);
  }

  /** One letter from its submission to a publish goroutine of its own. */
  function ToGoroutine(c: Config, s: State, l: nat): State
  {
    var e := Entry(|s.log.issued|, l);
    s.(tasks := s.tasks + [Wanting(e)],
       log := s.log.(issued := s.log.issued + [e], accepted := s.log.accepted + [e], taken := s.log.taken + [e]))
  }

  lemma StartsGoroutine(c: Config, s: State, l: nat, run: seq<Action>, t: State)
    requires ValidConfig(c) && s.dispatcher.Polling? && s.queue == [] && !s.closed && l < |s.retry|
    requires Sum(s.tasks, Live) < Permits(c) && Leads(c, ToGoroutine(c, s, l), run, t)
    ensures Leads(c, s, [Submit(l)] + ([Take] + ([Dispatch] + run)), t)
  {
    hide Sum, Leads, Permits, ClientStep, TaskStep, SenderStep, ProcessorStep;
    var e := Entry(|s.log.issued|, l);
    var s1 := s.(queue := [e], log := s.log.(issued := s.log.issued + [e], accepted := s.log.accepted + [e]));
    var s2 := s1.(queue := [], dispatcher := InHand(e), log := s1.log.(taken := s.log.taken + [e]));
    Then(c, s2, Dispatch, ToGoroutine(c, s, l), run, t);
    Then(c, s1, Take, s2, [Dispatch] + run, t);
    Then(c, s, Submit(l), s1, [Take] + ([Dispatch] + run), t);
  }

  /** A polling dispatcher on an empty queue can start n more goroutines. */
  lemma {:induction false} StartsMore(c: Config, s: State, l: nat, n: nat) returns (run: seq<Action>, t: State)
    requires ValidConfig(c) && s.dispatcher.Polling? && s.queue == [] && !s.closed && l < |s.retry|
    requires Sum(s.tasks, Live) + n <= Permits(c)
    ensures Leads(c, s, run, t) && Sum(t.tasks, Live) == Sum(s.tasks, Live) + n
    decreases n
  {
    run, t := [], s;
    assert Leads(c, s, [], s);
    hide Sum, Permits, Leads;
    if n > 0 {
      SumAppend(s.tasks, Wanting(Entry(|s.log.issued|, l)), Live);
      run, t := StartsMore(c, ToGoroutine(c, s, l), l, n - 1);
      StartsGoroutine(c, s, l, run, t);
      run := [Submit(l)] + ([Take] + ([Dispatch] + run));
    }
  }

  /** The share is used: C/2 + 1 publish goroutines can be live at once. */
  lemma ShareIsUsed(c: Config, s: State) returns (run: seq<Action>)
    requires ValidConfig(c) && Initial(c, s) && s.initial != []
    ensures Executable(c, s, run) && Sum(Run(c, s, run).tasks, Live) == c.cacheSize / 2 + 1
  {
    var s1 := s.(dispatcher := Starting);
    var s2 := s1.(dispatcher := Polling);
    var more, t := StartsMore(c, s2, 0, c.cacheSize / 2 + 1);
    hide Sum;
    Then(c, s1, BeginCheck, s2, more, t);
    Then(c, s, StartPublisher, s1, [BeginCheck] + more, t);
    run := [StartPublisher] + ([BeginCheck] + more);
  }

  // ---------- The pool's shutdown ----------

  /** Shutting down takes every cached channel out of the cache, in order, and touches
      nothing else. */
  lemma {:induction false} ShutdownFlushesTheCache(c: Config, s: State) returns (run: seq<Action>)
    ensures |run| == |s.pool.cache| && forall i :: 0 <= i < |run| ==> run[i].ShutChannel?
    ensures Leads(c, s, run, s.(pool := s.pool.(cache := [], shut := s.pool.shut + s.pool.cache)))
    decreases |s.pool.cache|
  {
    var t := s.(pool := s.pool.(cache := [], shut := s.pool.shut + s.pool.cache));
    if s.pool.cache == [] {
      run := [];
      assert t == s;
    } else {
      var Pool(cache, clients, shut) := s.pool;
      var m := s.(pool := Pool(cache[1..], clients, shut + [cache[0]]));
      run := ShutdownFlushesTheCache(c, m);
      assert shut + [cache[0]] + cache[1..] == shut + cache;
      Then(c, s, ShutChannel, m, run, t);
      run := [ShutChannel] + run;
    }
  }

  // ---------- Stopping ----------

  /** When the queue is closed the dispatcher has taken, in acceptance order, exactly
      what was accepted before its last empty observation, and has started one
      publish goroutine for each, in that order; what was accepted later is left. */
  lemma StopDrains(c: Config, s: State)
    requires Reachable(c, s) && s.closed
    ensures s.log.emptyAt <= |s.log.accepted|
    ensures s.log.taken == s.log.accepted[..s.log.emptyAt]
    ensures s.queue == s.log.accepted[s.log.emptyAt..]
    ensures |s.tasks| == s.log.emptyAt
    ensures forall k :: 0 <= k < |s.tasks| && !s.tasks[k].Releasing? && !s.tasks[k].Ended? ==>
      s.tasks[k].entry == s.log.accepted[k]
  {
    ReachableInv(c, s);
    assert s.log.accepted == s.log.taken + s.queue;
  }

  /** A closed queue stays closed, and whatever runs next sends nothing into it
      and takes nothing out of it: every safeSend answers false. */
  lemma {:induction false} ClosedForGood(c: Config, s: State, run: seq<Action>)
    requires Inv(c, s) && s.closed && Executable(c, s, run)
    ensures QueueUntouched(s, Run(c, s, run))
    decreases |run|
  {
    hide Sum, Reported, Conserved, Balanced, CacheKept, Counted, Issued;
    if run != [] {
      StepKeepsInv(c, s, run[0]);
      ClosedStep(c, s, run[0]);
      ClosedForGood(c, Do(c, s, run[0]), run[1..]);
    }
  }

  /** What a step does not touch once the queue is closed. */
  ghost predicate QueueUntouched(s: State, s': State)
  {
    s'.closed && s'.queue == s.queue && s'.log.accepted == s.log.accepted && s'.log.issued == s.log.issued
  }

  lemma ClosedDispatcher(c: Config, s: State, a: Action)
    requires Ordered(s) && s.closed && DispatcherEnabled(c, s, a)
    ensures QueueUntouched(s, DispatcherStep(c, s, a))
  {
    hide Sum;
  }

  lemma ClosedStep(c: Config, s: State, a: Action)
    requires Ordered(s) && s.closed && Enabled(c, s, a)
    ensures QueueUntouched(s, Do(c, s, a))
  {
    hide Ordered, Sum, ClientStep, DispatcherStep, TaskStep, SenderStep;
    hide ClientEnabled, TaskEnabled, SenderEnabled, DispatcherEnabled;
    if OfProducer(a) {
      assert QueueUntouched(s, ProducerStep(c, s, a));
    } else if OfClient(a) {
      assert QueueUntouched(s, ClientStep(c, s, a));
    } else if OfDispatcher(a) {
      ClosedDispatcher(c, s, a);
    } else if OfTask(a) {
      assert QueueUntouched(s, TaskStep(c, s, a));
    } else if OfSender(a) {
      assert QueueUntouched(s, SenderStep(c, s, a));
    } else {
      assert QueueUntouched(s, ProcessorStep(c, s, a));
    }
  }

  /** A dispatcher that has left without closing the queue saw the stop before
      deliverLetters began: it never took anything, and every accepted letter is
      still in the queue. */
  lemma LeftWithoutClosing(c: Config, s: State, p: Probe)
    requires Reachable(c, s) && (s.dispatcher.Leaving? || s.dispatcher.Gone?) && !s.closed
    ensures s.log.taken == [] && s.queue == s.log.accepted
    ensures Sum(s.queue, Hits(p)) == Sum(s.log.issued, Hits(p))
  {
    ReachableInv(c, s);
    assert Conserved(p, s);
    assert s.log.accepted == s.log.taken + s.queue;
  }

  /** The dispatcher gets past the stop check that comes before deliverLetters. */
  predicate BeginsDelivery(c: Config, s: State, run: seq<Action>)
    requires Executable(c, s, run)
    decreases |run|
  {
    run != [] && ((run[0].BeginCheck? && s.stops == 0) || BeginsDelivery(c, Do(c, s, run[0]), run[1..]))
  }

  /** A stop signal is sent before that check. */
  predicate SignalledEarly(run: seq<Action>)
  {
    exists i, j :: 0 <= i < j < |run| && run[i].SendStop? && run[j].BeginCheck?
  }

  /** A stop is requested before that check; its signal may come later. */
  predicate RequestedEarly(run: seq<Action>)
  {
    exists i, j :: 0 <= i < j < |run| && run[i].RequestStop? && run[j].BeginCheck?
  }

  lemma DeliveringNext(c: Config, s: State, a: Action)
    requires Enabled(c, s, a)
    ensures Delivering(Do(c, s, a)) || Do(c, s, a).closed <==>
      Delivering(s) || s.closed || (a.BeginCheck? && s.stops == 0)
  {
    hide Sum, Enabled, Do;
    if OfDispatcher(a) {
      DispatcherDoes(c, s, a);
    } else if OfProducer(a) {
      ProducerDoes(c, s, a);
    } else {
      Frame(c, s, a);
    }
  }

  lemma {:induction false} DeliveringExactly(c: Config, s: State, run: seq<Action>)
    requires Executable(c, s, run)
    ensures Delivering(Run(c, s, run)) || Run(c, s, run).closed <==>
      Delivering(s) || s.closed || BeginsDelivery(c, s, run)
    decreases |run|
  {
    hide Enabled, Do, Delivering;
    if run != [] {
      DeliveringNext(c, s, run[0]);
      DeliveringExactly(c, Do(c, s, run[0]), run[1..]);
    }
  }

  /** The dispatcher has not been through the first stop check. */
  predicate Before(s: State) { s.dispatcher.NotStarted? || s.dispatcher.Starting? }

  lemma BeforeNext(c: Config, s: State, a: Action)
    requires Enabled(c, s, a)
    ensures a.BeginCheck? ==> Before(s)
    ensures Before(Do(c, s, a)) <==> Before(s) && !a.BeginCheck?
    ensures !a.BeginCheck? && Before(s) ==> Do(c, s, a).stops == s.stops + if a.SendStop? then 1 else 0
  {
    hide Sum, Enabled, Do;
    if OfDispatcher(a) {
      DispatcherDoes(c, s, a);
    } else if OfProducer(a) {
      ProducerDoes(c, s, a);
    } else {
      Frame(c, s, a);
    }
  }

  /** The first stop check happens exactly once on the way out. */
  lemma {:induction false} ChecksOnce(c: Config, s: State, run: seq<Action>)
    requires Executable(c, s, run)
    ensures (exists j :: 0 <= j < |run| && run[j].BeginCheck?) <==> Before(s) && !Before(Run(c, s, run))
    ensures Before(Run(c, s, run)) ==> Before(s)
    decreases |run|
  {
    hide Enabled, Do, Before;
    if run != [] {
      var a, rest := run[0], run[1..];
      BeforeNext(c, s, a);
      ChecksOnce(c, Do(c, s, a), rest);
      assert forall j :: 0 < j < |run| ==> run[j] == rest[j - 1];
      assert forall j :: 0 <= j < |rest| ==> rest[j] == run[j + 1];
    }
  }

  lemma {:induction false} BeginsExactly(c: Config, s: State, run: seq<Action>)
    requires Executable(c, s, run) && Before(s) && !Before(Run(c, s, run))
    ensures BeginsDelivery(c, s, run) <==> s.stops == 0 && !SignalledEarly(run)
    decreases |run|
  {
    hide Enabled, Do, Before;
    var a, rest := run[0], run[1..];
    BeforeNext(c, s, a);
    ChecksOnce(c, Do(c, s, a), rest);
    assert forall j :: 0 < j < |run| ==> run[j] == rest[j - 1];
    assert forall j :: 0 <= j < |rest| ==> rest[j] == run[j + 1];
    if a.BeginCheck? {
      NoDeliveryAfter(c, Do(c, s, a), rest);
    } else {
      BeginsExactly(c, Do(c, s, a), rest);
    }
  }

  lemma {:induction false} NoDeliveryAfter(c: Config, s: State, run: seq<Action>)
    requires Executable(c, s, run) && !Before(s)
    ensures !BeginsDelivery(c, s, run)
    decreases |run|
  {
    hide Enabled, Do, Before;
    if run != [] {
      BeforeNext(c, s, run[0]);
      NoDeliveryAfter(c, Do(c, s, run[0]), run[1..]);
    }
  }

  lemma AskedNext(c: Config, s: State, a: Action)
    requires Enabled(c, s, a)
    ensures a.SendStop? ==> s.asked > 0
    ensures !a.RequestStop? ==> Do(c, s, a).asked <= s.asked
  {
    hide Sum, Enabled, Do, DispatcherStep;
    if OfDispatcher(a) {
      DispatcherDoes(c, s, a);
    } else if OfProducer(a) {
      ProducerDoes(c, s, a);
    } else {
      Frame(c, s, a);
    }
  }

  lemma StartedNext(c: Config, s: State, a: Action)
    requires Enabled(c, s, a)
    ensures a.RequestStop? ==> AutoStarted(s)
    ensures AutoStarted(Do(c, s, a)) <==> a.StartPublisher? || (AutoStarted(s) && !a.Leave?)
  {
    hide Sum, Enabled, Do;
    if OfDispatcher(a) {
      DispatcherDoes(c, s, a);
    } else if OfProducer(a) {
      ProducerDoes(c, s, a);
    } else {
      Frame(c, s, a);
    }
  }

  /** A stop is requested only while the auto-publisher is started: after a start, and
      before it has left. */
  lemma {:induction false} StopOnlyWhileStarted(c: Config, s: State, run: seq<Action>, i: nat) returns (j: nat)
    requires Executable(c, s, run) && !AutoStarted(s) && i < |run| && run[i].RequestStop?
    ensures j < i && run[j].StartPublisher? && forall k :: j < k < i ==> !run[k].Leave?
    decreases |run|
  {
    hide Enabled, Do, AutoStarted;
    StartedNext(c, s, run[0]);
    var rest := run[1..];
    if AutoStarted(Do(c, s, run[0])) {
      j := 0;
      if exists k :: 0 < k < i && run[k].Leave? {
        j := StopAfterLeave(c, Do(c, s, run[0]), rest, i - 1);
        j := j + 1;
      }
    } else {
      j := StopOnlyWhileStarted(c, Do(c, s, run[0]), rest, i - 1);
      j := j + 1;
    }
    assert forall k :: 0 < k < |run| ==> run[k] == rest[k - 1];
  }

  lemma {:induction false} StopAfterLeave(c: Config, s: State, run: seq<Action>, i: nat) returns (j: nat)
    requires Executable(c, s, run) && i < |run| && run[i].RequestStop? && exists k :: 0 <= k < i && run[k].Leave?
    ensures j < i && run[j].StartPublisher? && forall k :: j < k < i ==> !run[k].Leave?
    decreases |run|, 0
  {
    hide Enabled, Do, AutoStarted;
    StartedNext(c, s, run[0]);
    var rest := run[1..];
    assert forall k :: 0 < k < |run| ==> run[k] == rest[k - 1];
    if run[0].Leave? {
      j := StopOnlyWhileStarted(c, Do(c, s, run[0]), rest, i - 1);
    } else {
      assert exists k :: 0 <= k < i - 1 && rest[k].Leave?;
      j := StopAfterLeave(c, Do(c, s, run[0]), rest, i - 1);
    }
    j := j + 1;
  }

  /** A signal is sent only after its request. */
  lemma {:induction false} RequestComesFirst(c: Config, s: State, run: seq<Action>, i: nat) returns (j: nat)
    requires Executable(c, s, run) && s.asked == 0 && i < |run| && run[i].SendStop?
    ensures j < i && run[j].RequestStop?
    decreases |run|
  {
    hide Enabled, Do;
    AskedNext(c, s, run[0]);
    if run[0].RequestStop? {
      j := 0;
    } else {
      j := RequestComesFirst(c, Do(c, s, run[0]), run[1..], i - 1);
      j := j + 1;
    }
  }

  /** When the auto-publisher has stopped, the letter queue is closed if and only if
      no stop signal was sent before the stop check that precedes deliverLetters; so
      it is closed whenever no stop was requested before that check. */
  lemma StopClosesExactly(c: Config, s: State, run: seq<Action>)
    requires Initial(c, s) && Executable(c, s, run)
    requires Run(c, s, run).dispatcher.Leaving? || Run(c, s, run).dispatcher.Gone?
    ensures Run(c, s, run).closed <==> BeginsDelivery(c, s, run)
    ensures Run(c, s, run).closed <==> !SignalledEarly(run)
    ensures !RequestedEarly(run) ==> Run(c, s, run).closed
  {
    hide Executable, Run;
    DeliveringExactly(c, s, run);
    BeginsExactly(c, s, run);
    if SignalledEarly(run) {
      var i, j :| 0 <= i < j < |run| && run[i].SendStop? && run[j].BeginCheck?;
      var k := RequestComesFirst(c, s, run, i);
    }
  }

  /** A stop requested before the check can end either way. If the signal is sent
      first, the publisher leaves the queue open with all it holds. */
  lemma SignalledFirst(c: Config, s: State) returns (run: seq<Action>)
    requires s.dispatcher.Starting? && s.asked > 0 && s.stops == 0
    ensures Leads(c, s, run, s.(asked := s.asked - 1, dispatcher := Gone))
  {
    var s1 := s.(asked := s.asked - 1, stops := 1);
    var s2 := s1.(stops := 0, dispatcher := Leaving);
    var s3 := s2.(dispatcher := Gone);
    run := [];
    assert Leads(c, s3, run, s3);
    hide Sum, Leads;
    Then(c, s2, Leave, s3, run, s3);
    run := [Leave] + run;
    Then(c, s1, BeginCheck, s2, run, s3);
    run := [BeginCheck] + run;
    Then(c, s, SendStop, s1, run, s3);
    run := [SendStop] + run;
  }

  /** If the check comes first and the queue is seen empty, the queue is closed. */
  lemma CheckedFirst(c: Config, s: State) returns (run: seq<Action>)
    requires s.dispatcher.Starting? && s.asked > 0 && s.stops == 0 && s.queue == []
    ensures Leads(c, s, run, s.(asked := s.asked - 1, dispatcher := Gone, closed := true,
                                log := s.log.(emptyAt := |s.log.accepted|)))
  {
    hide Sum, Leads, ClientStep, TaskStep, SenderStep, ProcessorStep;
    var s1 := s.(dispatcher := Polling);
    var s2 := s.(dispatcher := CheckingStop, log := s.log.(emptyAt := |s.log.accepted|));
    run := SignalledLate(c, s2);
    var t := s2.(asked := s.asked - 1, dispatcher := Gone, closed := true);
    Then(c, s1, SeeEmpty, s2, run, t);
    run := [SeeEmpty] + run;
    Then(c, s, BeginCheck, s1, run, t);
    run := [BeginCheck] + run;
  }

  lemma SignalledLate(c: Config, s: State) returns (run: seq<Action>)
    requires s.dispatcher.CheckingStop? && s.asked > 0 && s.stops == 0
    ensures Leads(c, s, run, s.(asked := s.asked - 1, dispatcher := Gone, closed := true))
  {
    var s1 := s.(asked := s.asked - 1, stops := 1);
    var s2 := s1.(stops := 0, closed := true, dispatcher := Leaving);
    var s3 := s2.(dispatcher := Gone);
    run := [];
    assert Leads(c, s3, run, s3);
    hide Sum, Leads, ClientStep, TaskStep, SenderStep, ProcessorStep;
    Then(c, s2, Leave, s3, run, s3);
    run := [Leave] + run;
    Then(c, s1, CheckStop, s2, run, s3);
    run := [CheckStop] + run;
    Then(c, s, SendStop, s1, run, s3);
    run := [SendStop] + run;
  }

  /** Stranding does happen: after this run the publisher is gone, a letter sits in the
      open queue, and the next send is still answered true. */
  lemma EarlyStopStrandsLetters(c: Config, s: State) returns (run: seq<Action>, t: State)
    requires ValidConfig(c) && c.letterCapacity >= 2 && Initial(c, s) && |s.initial| == 1
    ensures Leads(c, s, run, t) && t.dispatcher.Gone? && !t.closed && t.queue == [Entry(0, 0), Entry(1, 0)]
  {
    var s1 := s.(dispatcher := Starting);
    var s2 := s1.(asked := 1);
    var s3 := s.(dispatcher := Gone);
    var s4 := Do(c, s3, Submit(0));
    t := Do(c, s4, Submit(0));
    assert Leads(c, t, [], t);
    hide Sum, Leads, Executable, Run;
    var early := SignalledFirst(c, s2);
    Then(c, s1, RequestStop, s2, early, s3);
    Then(c, s, StartPublisher, s1, [RequestStop] + early, s3);
    Then(c, s4, Submit(0), t, [], t);
    Then(c, s3, Submit(0), s4, [Submit(0)] + [], t);
    LeadsOn(c, s, [StartPublisher] + ([RequestStop] + early), s3, [Submit(0)] + ([Submit(0)] + []), t);
    run := [StartPublisher] + ([RequestStop] + early) + ([Submit(0)] + ([Submit(0)] + []));
  }

  lemma LeadsOn(c: Config, s: State, xs: seq<Action>, m: State, ys: seq<Action>, t: State)
    requires Leads(c, s, xs, m) && Leads(c, m, ys, t)
    ensures Leads(c, s, xs + ys, t)
  {
    RunConcat(c, s, xs, ys);
  }
}
