/** The Go channels of the pipeline over whole runs: letters that are submitted are the
    letters that are accepted, what is received is what was sent, in the same order, and
    no buffer ever holds more than its capacity. */
module PipelineChannels {
  import opened Sequences
  import opened Pipeline
  import opened PipelineConservation
  import opened PipelineSafety
  import opened PipelineBudget
  import opened PipelineProgress

  // ---------- What is submitted is what is accepted ----------

  function LettersOf(es: seq<Entry>): (ls: seq<nat>)
    ensures |ls| == |es|
    ensures forall i :: 0 <= i < |es| ==> ls[i] == es[i].letter
  {
    seq(|es|, i requires 0 <= i < |es| => es[i].letter)
  }

  /** The letters that producers submitted to the open queue, in order. */
  function SubmittedWhileOpen(c: Config, s: State, run: seq<Action>): seq<nat>
    requires Executable(c, s, run)
    decreases |run|
  {
    if run == [] then []
    else
      (if run[0].Submit? && !s.closed then [run[0].letter] else [])
      + SubmittedWhileOpen(c, Do(c, s, run[0]), run[1..])
  }

  lemma SubmissionNext(c: Config, s: State, a: Action)
    requires Enabled(c, s, a)
    ensures LettersOf(Do(c, s, a).log.issued) ==
      LettersOf(s.log.issued) + if a.Submit? && !s.closed then [a.letter] else []
    ensures a.Submit? && !s.closed ==> LettersOf(Do(c, s, a).queue) == LettersOf(s.queue) + [a.letter]
    ensures a.Submit? && s.closed ==> Do(c, s, a) == s
  {
    hide Enabled, Do;
    if OfProducer(a) {
      ProducerDoes(c, s, a);
    } else {
      Frame(c, s, a);
    }
  }

  /** Over every run, whatever is interleaved, the accepted entries are those of the
      letters submitted while the queue was open, one each, in that order. */
  lemma {:induction false} IssuedAreSubmitted(c: Config, s: State, run: seq<Action>)
    requires Executable(c, s, run)
    ensures LettersOf(Run(c, s, run).log.issued) == LettersOf(s.log.issued) + SubmittedWhileOpen(c, s, run)
    decreases |run|
  {
    hide Enabled, Do, LettersOf;
    if run == [] {
      assert LettersOf(s.log.issued) + [] == LettersOf(s.log.issued);
    } else {
      SubmissionNext(c, s, run[0]);
      IssuedAreSubmitted(c, Do(c, s, run[0]), run[1..]);
    }
  }

  /** From the start: submission number i is the entry with ticket i. */
  lemma SubmissionIsIssued(c: Config, s: State, run: seq<Action>, i: nat)
    requires Initial(c, s) && Executable(c, s, run) && i < |SubmittedWhileOpen(c, s, run)|
    ensures Entry(i, SubmittedWhileOpen(c, s, run)[i]) in Run(c, s, run).log.issued
    ensures |Run(c, s, run).log.issued| == |SubmittedWhileOpen(c, s, run)|
  {
    IssuedAreSubmitted(c, s, run);
    hide Executable, Run, SubmittedWhileOpen;
    var s' := Run(c, s, run);
    assert Reachable(c, s');
    ReachableInv(c, s');
    assert LettersOf(s'.log.issued) == SubmittedWhileOpen(c, s, run);
    assert s'.log.issued[i] == Entry(i, SubmittedWhileOpen(c, s, run)[i]);
  }

  /** No submission is lost or duplicated: whatever the run, each letter submitted to
      the open queue is in exactly one place for each time it was submitted. */
  lemma SubmissionInExactlyOnePlace(c: Config, s: State, run: seq<Action>, i: nat)
    requires Initial(c, s) && Executable(c, s, run) && i < |SubmittedWhileOpen(c, s, run)|
    ensures InPlaces(One(Entry(i, SubmittedWhileOpen(c, s, run)[i])), Run(c, s, run)) == 1
  {
    SubmissionIsIssued(c, s, run, i);
    assert Reachable(c, Run(c, s, run));
    EntryInExactlyOnePlace(c, Run(c, s, run), Entry(i, SubmittedWhileOpen(c, s, run)[i]));
  }

  /** From submission to settlement: in a run from the start that has come to rest with
      its dispatcher serving, each letter ever submitted to the open queue has been
      confirmed or reported exhausted, exactly one of the two, for each submission. */
  lemma EverySubmissionIsSettled(c: Config, s: State, run: seq<Action>, i: nat)
    requires Initial(c, s) && Executable(c, s, run) && i < |SubmittedWhileOpen(c, s, run)|
    requires forall l :: 0 <= l < |s.initial| ==> Fits(c, Run(c, s, run), l)
    requires Quiescent(c, Run(c, s, run)) && Serving(Run(c, s, run)) && ChannelsToSpare(c, Run(c, s, run))
    ensures var s' := Run(c, s, run); var e := Entry(i, SubmittedWhileOpen(c, s, run)[i]);
      && Sum(s'.confirmed, Hits(One(e))) + Sum(s'.exhausted, Hits(One(e))) == 1
      && Said(s', ExhaustedReports(e)) == Sum(s'.exhausted, Hits(One(e)))
  {
    SubmissionIsIssued(c, s, run, i);
    RunsEndSettled(c, s, run, Entry(i, SubmittedWhileOpen(c, s, run)[i]));
  }

  // ---------- Every channel is first-in first-out ----------

  /** What was sent into a channel and what was received from it, in order. */
  datatype Traffic<T> = Traffic(sent: seq<T>, received: seq<T>)

  /** The channel held `before`, holds `after`, and has let the traffic through in order. */
  ghost predicate Passes<T>(before: seq<T>, t: Traffic<T>, after: seq<T>)
  {
    before + t.sent == t.received + after
  }

  function Last<T>(xs: seq<T>): seq<T> { if xs == [] then [] else [xs[|xs| - 1]] }

  /** Letters that producers and the receipt processor send, and those the dispatcher
      has in hand. */
  function LetterTraffic(s: State, a: Action, s': State): Traffic<nat>
  {
    Traffic(if s.closed then []
            else if a.Submit? then [a.letter]
            else if a.Requeue? && s.processor.Requeuing? then [s.processor.entry.letter]
            else [],
            if a.Take? && s'.dispatcher.InHand? then [s'.dispatcher.entry.letter] else [])
  }

  /** Receipts the receipt goroutines send, and those the processor judges or confirms. */
  function ReceiptTraffic(s: State, a: Action, s': State): Traffic<Receipt>
  {
    Traffic(if a.SendReceipt? && a.sender < |s.senders| && s.senders[a.sender].Ready?
            then [Receipt(s.senders[a.sender].entry, s.senders[a.sender].success)] else [],
            if !a.TakeReceipt? then []
            else if s'.processor.Judging? then [Receipt(s'.processor.entry, false)]
            else if s'.confirmed != [] then [Receipt(s'.confirmed[|s'.confirmed| - 1], true)]
            else [])
  }

  /** Errors that are reported, and those the drain has taken. */
  function ReportTraffic(s: State, a: Action, s': State): Traffic<Report>
  {
    Traffic(if a.ForeignError? then [Foreign]
            else if !a.Say? then []
            else match s.processor
              case SayingRetry(e) => [Retrying(e)]
              case SayingRefused(e) => [Refused(e)]
              case SayingExhausted(e) => [Exhausted(e)]
              case _ => [],
            if a.DrainError? then Last(s'.log.drained) else [])
  }

  /** Channels given back to the cache, and those that goroutines, other users and the
      shutdown have got. */
  function ChannelTraffic(s: State, a: Action, s': State): Traffic<nat>
  {
    Traffic(
      if a.GiveBack? && a.task < |s.tasks| && s.tasks[a.task].Giving? then [s.tasks[a.task].channel]
      else if a.ClientReturn? && a.client < |s.pool.clients| && s.pool.clients[a.client].Holds?
              && s.pool.clients[a.client].managed then [s.pool.clients[a.client].channel]
      else [],
      if a.Acquire? && a.task < |s'.tasks| && s'.tasks[a.task].Holding? then [s'.tasks[a.task].channel]
      else if a.ClientBorrow? && a.client < |s'.pool.clients| && s'.pool.clients[a.client].Holds?
      then [s'.pool.clients[a.client].channel]
      else if a.ShutChannel? then Last(s'.pool.shut)
      else [])
  }

  /** A step lets its traffic through each channel in order. */
  ghost predicate InOrder(s: State, a: Action, s': State)
  {
    && Passes(LettersOf(s.queue), LetterTraffic(s, a, s'), LettersOf(s'.queue))
    && Passes(s.receipts, ReceiptTraffic(s, a, s'), s'.receipts)
    && Passes(s.errors, ReportTraffic(s, a, s'), s'.errors)
    && Passes(s.pool.cache, ChannelTraffic(s, a, s'), s'.pool.cache)
  }

  lemma ProducerInOrder(c: Config, s: State, a: Action)
    requires ProducerEnabled(c, s, a)
    ensures InOrder(s, a, ProducerStep(c, s, a))
  {
  }

  lemma ClientInOrder(c: Config, s: State, a: Action)
    requires ClientEnabled(c, s, a)
    ensures InOrder(s, a, ClientStep(c, s, a))
  {
  }

  lemma DispatcherInOrder(c: Config, s: State, a: Action)
    requires DispatcherEnabled(c, s, a)
    ensures InOrder(s, a, DispatcherStep(c, s, a))
  {
    hide Sum, LetterTraffic, LettersOf, DispatcherEnabled, DispatcherStep;
    DispatcherLetters(c, s, a);
  }

  lemma DispatcherLetters(c: Config, s: State, a: Action)
    requires DispatcherEnabled(c, s, a)
    ensures OfDispatcher(a)
    ensures Passes(LettersOf(s.queue), LetterTraffic(s, a, DispatcherStep(c, s, a)), LettersOf(DispatcherStep(c, s, a).queue))
  {
    hide Sum;
  }

  lemma TaskInOrder(c: Config, s: State, a: Action)
    requires TaskEnabled(c, s, a)
    ensures InOrder(s, a, TaskStep(c, s, a))
  {
  }

  lemma SenderInOrder(c: Config, s: State, a: Action)
    requires SenderEnabled(c, s, a)
    ensures InOrder(s, a, SenderStep(c, s, a))
  {
  }

  lemma ProcessorInOrder(c: Config, s: State, a: Action)
    requires ProcessorEnabled(c, s, a)
    ensures InOrder(s, a, ProcessorStep(c, s, a))
  {
    hide LetterTraffic, ReceiptTraffic, ReportTraffic, LettersOf, ProcessorEnabled, ProcessorStep;
    ProcessorLetters(c, s, a);
    ProcessorReceipts(c, s, a);
    ProcessorErrors(c, s, a);
  }

  lemma ProcessorLetters(c: Config, s: State, a: Action)
    requires ProcessorEnabled(c, s, a)
    ensures OfProcessor(a)
    ensures Passes(LettersOf(s.queue), LetterTraffic(s, a, ProcessorStep(c, s, a)), LettersOf(ProcessorStep(c, s, a).queue))
  {
  }

  lemma ProcessorReceipts(c: Config, s: State, a: Action)
    requires ProcessorEnabled(c, s, a)
    ensures Passes(s.receipts, ReceiptTraffic(s, a, ProcessorStep(c, s, a)), ProcessorStep(c, s, a).receipts)
  {
  }

  lemma ProcessorErrors(c: Config, s: State, a: Action)
    requires ProcessorEnabled(c, s, a)
    ensures Passes(s.errors, ReportTraffic(s, a, ProcessorStep(c, s, a)), ProcessorStep(c, s, a).errors)
  {
  }

  lemma StepInOrder(c: Config, s: State, a: Action)
    requires Enabled(c, s, a)
    ensures InOrder(s, a, Do(c, s, a))
  {
    hide InOrder, ProducerStep, ClientStep, DispatcherStep, TaskStep, SenderStep, ProcessorStep;
    if OfProducer(a) {
      ProducerInOrder(c, s, a);
    } else if OfClient(a) {
      ClientInOrder(c, s, a);
    } else if OfDispatcher(a) {
      DispatcherInOrder(c, s, a);
    } else if OfTask(a) {
      TaskInOrder(c, s, a);
    } else if OfSender(a) {
      SenderInOrder(c, s, a);
    } else {
      ProcessorInOrder(c, s, a);
    }
  }

  /** The traffic of a whole run. */
  function Over<T>(c: Config, s: State, run: seq<Action>, of: (State, Action, State) -> Traffic<T>): Traffic<T>
    requires Executable(c, s, run)
    decreases |run|
  {
    if run == [] then Traffic([], [])
    else
      var s' := Do(c, s, run[0]);
      var first, rest := of(s, run[0], s'), Over(c, s', run[1..], of);
      Traffic(first.sent + rest.sent, first.received + rest.received)
  }

  lemma PassesOn<T>(before: seq<T>, t: Traffic<T>, mid: seq<T>, u: Traffic<T>, after: seq<T>)
    requires Passes(before, t, mid) && Passes(mid, u, after)
    ensures Passes(before, Traffic(t.sent + u.sent, t.received + u.received), after)
  {
    assert before + (t.sent + u.sent) == (before + t.sent) + u.sent;
    assert t.received + (mid + u.sent) == (t.received + mid) + u.sent;
    assert t.received + (u.received + after) == (t.received + u.received) + after;
  }

  lemma {:induction false} RunPasses<T>(c: Config, s: State, run: seq<Action>, of: (State, Action, State) -> Traffic<T>,
                                        contents: State -> seq<T>)
    requires Executable(c, s, run)
    requires forall x: State, a: Action ::
      Enabled(c, x, a) ==> Passes(contents(x), of(x, a, Do(c, x, a)), contents(Do(c, x, a)))
    ensures Passes(contents(s), Over(c, s, run, of), contents(Run(c, s, run)))
    decreases |run|
  {
    hide Enabled, Do;
    if run == [] {
      assert contents(s) + [] == [] + contents(s);
    } else {
      var s' := Do(c, s, run[0]);
      RunPasses(c, s', run[1..], of, contents);
      PassesOn(contents(s), of(s, run[0], s'), contents(s'), Over(c, s', run[1..], of), contents(Run(c, s', run[1..])));
    }
  }

  /** Over every run the letter queue, the receipt channel, the error channel and the
      channel cache are first-in first-out and lose nothing: what each held followed by
      what was sent into it is what was received from it followed by what it holds. */
  lemma ChannelsAreFifo(c: Config, s: State, run: seq<Action>)
    requires Executable(c, s, run)
    ensures Passes(LettersOf(s.queue), Over(c, s, run, LetterTraffic), LettersOf(Run(c, s, run).queue))
    ensures Passes(s.receipts, Over(c, s, run, ReceiptTraffic), Run(c, s, run).receipts)
    ensures Passes(s.errors, Over(c, s, run, ReportTraffic), Run(c, s, run).errors)
    ensures Passes(s.pool.cache, Over(c, s, run, ChannelTraffic), Run(c, s, run).pool.cache)
  {
    hide Enabled, Do, Executable, Run, Passes, Over, LettersOf, LetterTraffic, ReceiptTraffic, ReportTraffic, ChannelTraffic;
    forall x: State, a: Action | Enabled(c, x, a) ensures InOrder(x, a, Do(c, x, a)) { StepInOrder(c, x, a); }
    RunPasses(c, s, run, LetterTraffic, (x: State) => LettersOf(x.queue));
    RunPasses(c, s, run, ReceiptTraffic, (x: State) => x.receipts);
    RunPasses(c, s, run, ReportTraffic, (x: State) => x.errors);
    RunPasses(c, s, run, ChannelTraffic, (x: State) => x.pool.cache);
  }

  // ---------- No buffer overflows ----------

  ghost predicate Bounded(c: Config, s: State)
  {
    && |s.queue| <= c.letterCapacity && |s.receipts| <= c.receiptCapacity && |s.errors| <= c.errorCapacity
    && s.stops <= 1
  }

  lemma StepKeepsBounds(c: Config, s: State, a: Action)
    requires Bounded(c, s) && Enabled(c, s, a)
    ensures Bounded(c, Do(c, s, a))
  {
    hide Sum, ProducerStep, ClientStep, DispatcherStep, TaskStep, SenderStep, ProcessorStep;
    hide ProducerEnabled, TaskEnabled, DispatcherEnabled, ProcessorEnabled;
    if OfProducer(a) {
      ProducerKeepsBounds(c, s, a);
    } else if OfProcessor(a) {
      ProcessorKeepsBounds(c, s, a);
    } else if OfDispatcher(a) {
      DispatcherKeepsBounds(c, s, a);
    } else if !OfTask(a) {
      OthersKeepBounds(c, s, a);
    }
  }

  lemma ProducerKeepsBounds(c: Config, s: State, a: Action)
    requires Bounded(c, s) && ProducerEnabled(c, s, a)
    ensures Bounded(c, ProducerStep(c, s, a))
  {
  }

  lemma ProcessorKeepsBounds(c: Config, s: State, a: Action)
    requires Bounded(c, s) && ProcessorEnabled(c, s, a)
    ensures Bounded(c, ProcessorStep(c, s, a))
  {
  }

  lemma DispatcherKeepsBounds(c: Config, s: State, a: Action)
    requires Bounded(c, s) && DispatcherEnabled(c, s, a)
    ensures Bounded(c, DispatcherStep(c, s, a))
  {
    hide Sum;
  }

  lemma OthersKeepBounds(c: Config, s: State, a: Action)
    requires Bounded(c, s) && (ClientEnabled(c, s, a) || SenderEnabled(c, s, a))
    ensures Bounded(c, if ClientEnabled(c, s, a) then ClientStep(c, s, a) else SenderStep(c, s, a))
  {
  }

  lemma {:induction false} RunKeepsBounds(c: Config, s: State, run: seq<Action>)
    requires Bounded(c, s) && Executable(c, s, run)
    ensures Bounded(c, Run(c, s, run))
    decreases |run|
  {
    hide Enabled, Do, Bounded;
    if run != [] {
      StepKeepsBounds(c, s, run[0]);
      RunKeepsBounds(c, Do(c, s, run[0]), run[1..]);
    }
  }

  /** No buffer ever holds more than its capacity; and a send waits exactly while its
      buffer is full: that of a producer on the open letter queue, that of a receipt
      goroutine, and that of a stop goroutine. */
  lemma SendsWaitExactlyOnFullBuffers(c: Config, s: State, l: nat, j: nat)
    requires Reachable(c, s)
    ensures |s.queue| <= c.letterCapacity && |s.receipts| <= c.receiptCapacity && |s.errors| <= c.errorCapacity
    ensures s.stops <= 1 && |s.pool.cache| <= c.cacheSize
    ensures l < |s.initial| ==> (!Enabled(c, s, Submit(l)) <==> !s.closed && |s.queue| == c.letterCapacity)
    ensures j < |s.senders| && s.senders[j].Ready? ==> (!Enabled(c, s, SendReceipt(j)) <==> |s.receipts| == c.receiptCapacity)
    ensures s.asked > 0 ==> (!Enabled(c, s, SendStop) <==> s.stops == 1)
  {
    ReachableInv(c, s);
    CacheIsConserved(c, s, 0);
    ReachableBounds(c, s);
    hide Sum, Reachable, DispatcherStep, ClientStep, TaskStep, ProcessorStep, SenderStep, ProducerStep;
  }

  /** A publish goroutine waits exactly for a channel, while the cache is empty, and for
      nothing else, whatever the broker answers and whatever anybody else is doing; a
      receipt goroutine never waits to count. */
  lemma PublishersWaitExactly(c: Config, s: State, i: nat, j: nat, erred: bool, v: Verdict)
    requires Reachable(c, s)
    ensures i < |s.tasks| ==>
      && (s.tasks[i].Wanting? ==> (!Enabled(c, s, Acquire(i)) <==> s.pool.cache == []))
      && (s.tasks[i].Holding? ==> Enabled(c, s, Publish(i, erred))) && (s.tasks[i].Giving? ==> Enabled(c, s, GiveBack(i)))
      && (s.tasks[i].Waiting? ==> Enabled(c, s, Confirm(i, v))) && (s.tasks[i].Releasing? ==> Enabled(c, s, Release(i)))
    ensures j < |s.senders| && s.senders[j].Counting? ==> Enabled(c, s, Count(j))
  {
    ReturnNeverBlocks(c, s, i, erred);
    LettersExist(c, s, j);
    hide Sum, Reachable, ProducerStep, ClientStep, DispatcherStep, TaskStep, SenderStep, ProcessorStep;
    hide ProducerEnabled, ClientEnabled, DispatcherEnabled, ProcessorEnabled;
  }

  /** The receipt processor waits exactly for a receipt, for room in the error channel
      and for room in the open letter queue. */
  lemma ProcessorWaitsExactly(c: Config, s: State)
    requires Reachable(c, s)
    ensures s.processor.Idle? ==> (!Enabled(c, s, TakeReceipt) <==> s.receipts == [])
    ensures s.processor.Judging? ==> Enabled(c, s, Judge)
    ensures s.processor.Requeuing? ==> (!Enabled(c, s, Requeue) <==> !s.closed && |s.queue| == c.letterCapacity)
    ensures s.processor.SayingRetry? || s.processor.SayingRefused? || s.processor.SayingExhausted? ==>
      (!Enabled(c, s, Say) <==> |s.errors| == c.errorCapacity)
  {
    ReachableBounds(c, s);
    LettersExist(c, s, 0);
    hide Sum, Reachable, ProducerStep, ClientStep, DispatcherStep, TaskStep, SenderStep, ProcessorStep;
    hide ProducerEnabled, ClientEnabled, DispatcherEnabled, TaskEnabled, SenderEnabled;
  }

  /** Failures to be counted or judged are of letters that exist. */
  lemma LettersExist(c: Config, s: State, j: nat)
    requires Reachable(c, s)
    ensures j < |s.senders| && !s.senders[j].Sent? ==> s.senders[j].entry.letter < |s.retry|
    ensures !s.processor.Idle? ==> s.processor.entry.letter < |s.retry|
  {
    ReachableInv(c, s);
    if j < |s.senders| && !s.senders[j].Sent? {
      SumPart(s.senders, j, SenderHits(One(s.senders[j].entry)));
      LetterExists(c, s, s.senders[j].entry);
    }
    if !s.processor.Idle? {
      LetterExists(c, s, s.processor.entry);
    }
  }

  lemma ReachableBounds(c: Config, s: State)
    requires Reachable(c, s)
    ensures Bounded(c, s)
  {
    var s0: State, run: seq<Action> :| Initial(c, s0) && Executable(c, s0, run) && Run(c, s0, run) == s;
    RunKeepsBounds(c, s0, run);
  }
}
