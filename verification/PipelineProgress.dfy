/** Liveness of the pipeline: it never deadlocks, its productive steps are bounded
    by an explicit amount, and where it comes to rest every letter is settled. */
module PipelineProgress {
  import opened Sequences
  import opened Pipeline
  import opened PipelineConservation
  import opened PipelineSafety
  import opened PipelineBudget

  /** Steps that move an entry or an error along. The dispatcher's looks at an
      empty queue, and the steps of producers and clients, are not productive. */
  predicate Productive(s: State, a: Action)
  {
    OfTask(a) || OfSender(a) || OfProcessor(a) || a.Take? || a.Dispatch?
    || ((a.BeginCheck? || a.CheckStop?) && s.queue != [])
  }

  /** A publish error or a nack sends the letter back within one attempt. */
  predicate Fault(a: Action) { (a.Publish? && a.erred) || (a.Confirm? && a.verdict.Nacked?) }

  /** The dispatcher serves the queue, or is about to. */
  predicate Serving(s: State) { s.dispatcher.Starting? || Delivering(s) }

  ghost predicate Quiescent(c: Config, s: State)
  {
    forall a: Action :: Enabled(c, s, a) ==> !Productive(s, a)
  }

  /** The circumstances deadlock-freedom needs: a channel to publish on, not all of
      them in the hands of consumers, and the pool not shut down. */
  predicate ChannelsToSpare(c: Config, s: State)
  {
    ValidConfig(c) && s.pool.shut == [] && Sum(s.pool.clients, ClientChannels(Every)) < c.cacheSize
  }

  function Unsent(r: Sender): nat { if r.Sent? then 0 else 1 }

  /** Nothing is on its way: all that is left is in the queue of a dispatcher that
      is not serving it. */
  predicate AtRest(s: State)
  {
    && Sum(s.tasks, Live) == 0 && Sum(s.senders, Unsent) == 0 && s.receipts == []
    && s.processor.Idle? && s.errors == [] && !s.dispatcher.InHand?
    && (s.queue == [] || s.dispatcher.NotStarted? || s.dispatcher.Leaving? || s.dispatcher.Gone?)
  }

  // ---------- Deadlock-freedom ----------

  /** A live publish task implies an enabled publish task: one that waits for a
      channel waits for another task that holds one. */
  lemma TaskProgress(c: Config, s: State, v: Verdict) returns (a: Action)
    requires !v.Nacked? && Reachable(c, s) && ChannelsToSpare(c, s) && Sum(s.tasks, Live) > 0
    ensures OfTask(a) && Enabled(c, s, a) && !Fault(a) && (a.Confirm? ==> a.verdict == v)
  {
    var i := SumSource(s.tasks, Live);
    if s.tasks[i].Wanting? && s.pool.cache == [] {
      CacheIsConserved(c, s, 0);
      i := SumSource(s.tasks, TaskChannels(Every));
    }
    match s.tasks[i]
    case Wanting(_) => a := Acquire(i);
    case Holding(_, _) => a := Publish(i, false);
    case Giving(_, _, _) =>
      a := GiveBack(i);
      ReturnNeverBlocks(c, s, i, false);
    case Waiting(_) => a := Confirm(i, v);
    case Releasing => a := Release(i);
  }

  /** A dispatcher with something to do can do it, or a publish task can. */
  lemma DispatcherProgress(c: Config, s: State, v: Verdict) returns (a: Action)
    requires !v.Nacked? && Reachable(c, s) && ChannelsToSpare(c, s)
    requires s.dispatcher.InHand? || (s.queue != [] && Serving(s))
    ensures Productive(s, a) && Enabled(c, s, a) && !Fault(a) && (a.Confirm? ==> a.verdict == v)
  {
    if s.dispatcher.InHand? {
      if Sum(s.tasks, Live) < Permits(c) {
        a := Dispatch;
      } else {
        a := TaskProgress(c, s, v);
      }
    } else {
      a := if s.dispatcher.Polling? then Take else if s.dispatcher.Starting? then BeginCheck else CheckStop;
    }
  }

  /** Entries on their way are accepted entries, so their letters exist. */
  lemma LetterExists(c: Config, s: State, e: Entry)
    requires Inv(c, s) && InPlaces(One(e), s) > 0
    ensures e.letter < |s.retry|
  {
    assert Conserved(One(e), s);
    CountIssued(s.log.issued, e);
  }

  lemma ProcessorProgress(c: Config, s: State, v: Verdict) returns (a: Action)
    requires !v.Nacked? && Reachable(c, s) && ChannelsToSpare(c, s) && !s.processor.Idle? && s.errors == []
    ensures Productive(s, a) && Enabled(c, s, a) && !Fault(a) && (a.Confirm? ==> a.verdict == v)
  {
    ReachableInv(c, s);
    match s.processor
    case Judging(e) =>
      LetterExists(c, s, e);
      a := Judge;
    case Requeuing(_) =>
      if s.closed || |s.queue| < c.letterCapacity {
        a := Requeue;
      } else {
        a := DispatcherProgress(c, s, v);
      }
    case _ => a := Say;
  }

  lemma SenderProgress(c: Config, s: State) returns (a: Action)
    requires Reachable(c, s) && ValidConfig(c) && Sum(s.senders, Unsent) > 0 && s.receipts == []
    ensures OfSender(a) && Enabled(c, s, a)
  {
    var j := SumSource(s.senders, Unsent);
    if s.senders[j].Counting? {
      ReachableInv(c, s);
      SumPart(s.senders, j, SenderHits(One(s.senders[j].entry)));
      LetterExists(c, s, s.senders[j].entry);
      a := Count(j);
    } else {
      a := SendReceipt(j);
    }
  }

  /** Deadlock-freedom: every reachable state that is not at rest has an enabled
      productive step, whatever buffers are full and however the broker would answer. */
  lemma Progress(c: Config, s: State, v: Verdict) returns (a: Action)
    requires !v.Nacked? && Reachable(c, s) && ChannelsToSpare(c, s) && !AtRest(s)
    ensures Productive(s, a) && Enabled(c, s, a) && !Fault(a) && (a.Confirm? ==> a.verdict == v)
  {
    if s.errors != [] {
      a := DrainError;
    } else if !s.processor.Idle? {
      a := ProcessorProgress(c, s, v);
    } else if s.receipts != [] {
      a := TakeReceipt;
    } else if Sum(s.senders, Unsent) > 0 {
      a := SenderProgress(c, s);
    } else if Sum(s.tasks, Live) > 0 {
      a := TaskProgress(c, s, v);
    } else {
      a := DispatcherProgress(c, s, v);
    }
  }

  // ---------- At rest every letter is settled ----------

  lemma RestSettles(c: Config, s: State, e: Entry)
    requires Reachable(c, s) && AtRest(s) && e in s.log.issued
    ensures Sum(s.confirmed, Hits(One(e))) + Sum(s.exhausted, Hits(One(e)))
            + Sum(s.refused, Hits(One(e))) + Sum(s.queue, Hits(One(e))) == 1
    ensures !s.closed ==> s.refused == []
    ensures Serving(s) ==> s.queue == [] && s.refused == []
  {
    EntryInExactlyOnePlace(c, s, e);
    ReachableInv(c, s);
    forall t: Task | t in s.tasks ensures TaskHits(One(e))(t) == 0 {
      var i :| 0 <= i < |s.tasks| && s.tasks[i] == t;
      SumPart(s.tasks, i, Live);
    }
    SumZero(s.tasks, TaskHits(One(e)));
    forall r: Sender | r in s.senders ensures SenderHits(One(e))(r) == 0 {
      var i :| 0 <= i < |s.senders| && s.senders[i] == r;
      SumPart(s.senders, i, Unsent);
    }
    SumZero(s.senders, SenderHits(One(e)));
  }

  /** Where the pipeline comes to rest before any stop, each accepted letter is
      either confirmed or reported exhausted. */
  lemma QuiescentMeansSettled(c: Config, s: State, e: Entry)
    requires Reachable(c, s) && ChannelsToSpare(c, s) && Quiescent(c, s) && Serving(s)
    requires e in s.log.issued
    ensures Sum(s.confirmed, Hits(One(e))) + Sum(s.exhausted, Hits(One(e))) == 1
    ensures Said(s, ExhaustedReports(e)) == Sum(s.exhausted, Hits(One(e)))
  {
    if !AtRest(s) {
      var a := Progress(c, s, Acked);
      assert false;
    }
    RestSettles(c, s, e);
    ReachableInv(c, s);
    assert Reported(e, s);
  }

  /** Deadlock-freedom, letter by letter: before a stop, a letter that is
      neither confirmed nor exhausted implies an enabled productive step. */
  lemma UnfinishedLetterHasAStep(c: Config, s: State, e: Entry) returns (a: Action)
    requires Reachable(c, s) && ChannelsToSpare(c, s) && Serving(s)
    requires e in s.log.issued && e !in s.confirmed && e !in s.exhausted
    ensures Productive(s, a) && Enabled(c, s, a) && !Fault(a)
  {
    if AtRest(s) {
      RestSettles(c, s, e);
      SumZero(s.confirmed, Hits(One(e)));
      SumZero(s.exhausted, Hits(One(e)));
      assert false;
    }
    a := Progress(c, s, Acked);
  }

  /** The proviso is needed: while the other users hold every channel, no publish
      task can take one. */
  lemma NoChannelsNoPublishing(c: Config, s: State, i: nat)
    requires Reachable(c, s) && Sum(s.pool.clients, ClientChannels(Every)) >= c.cacheSize
    ensures !Enabled(c, s, Acquire(i))
    ensures i < |s.tasks| ==> !s.tasks[i].Holding? && !s.tasks[i].Giving?
  {
    CacheIsConserved(c, s, 0);
    if i < |s.tasks| {
      SumPart(s.tasks, i, TaskChannels(Every));
    }
  }

  // ---------- Termination: an explicit bound on productive steps ----------

  function TaskRank(t: Task): nat
  {
    match t
    case Ended => 0
    case Releasing => 1
    case Waiting(_) => 8
    case Giving(_, _, erred) => if erred then 12 else 9
    case Holding(_, _) => 10
    case Wanting(_) => 11
  }

  function SenderRank(r: Sender): nat
  {
    match r
    case Sent => 0
    case Ready(_, success) => if success then 2 else 5
    case Counting(_) => 6
  }

  function ReceiptRank(r: Receipt): nat { if r.success then 1 else 4 }

  function ProcessorRank(p: Processor): nat
  {
    match p
    case Idle => 0
    case SayingExhausted(_) => 2
    case SayingRefused(_) => 2
    case Judging(_) => 3
    case Requeuing(_) => 15
    case SayingRetry(_) => 17
  }

  /** A dispatcher that has yet to wake up to a non-empty queue. */
  function WakeRank(s: State): nat
  {
    if s.queue != [] && (s.dispatcher.NotStarted? || s.dispatcher.Starting? || s.dispatcher.CheckingStop?) then 1 else 0
  }

  /** How far the entries and errors still have to go without further retries. */
  function Stage(s: State): nat
  {
    13 * |s.queue| + (if s.dispatcher.InHand? then 12 else 0) + WakeRank(s)
    + Sum(s.tasks, TaskRank) + Sum(s.senders, SenderRank) + Sum(s.receipts, ReceiptRank)
    + ProcessorRank(s.processor) + |s.errors|
  }

  function AllowanceOf(c: Config): Counter -> nat { (r: Counter) => Allowance(c, r) }

  /** Stage plus what the retries not yet granted can still cost. */
  function Rank(c: Config, s: State): int
  {
    15 * (Sum(s.initial, AllowanceOf(c)) - |s.log.granted|) + Stage(s)
  }

  /** What the environment puts in with a step. */
  function Input(a: Action): nat
  {
    if Fault(a) then 15 else if a.Submit? then 14 else if a.ForeignError? then 1 else 0
  }

  function Work(s: State, a: Action): nat { if Productive(s, a) then 1 else 0 }

  lemma TaskRanks(c: Config, s: State, a: Action)
    requires TaskEnabled(c, s, a)
    ensures Rank(c, TaskStep(c, s, a)) + 1 <= Rank(c, s) + Input(a)
  {
    hide Sum;
    SumUpdate(s.tasks, a.task, NextTask(c, s, a), TaskRank);
    if a.Confirm? && !a.verdict.Nacked? {
      SumAppend(s.senders, TaskStep(c, s, a).senders[|s.senders|], SenderRank);
    }
  }

  lemma SenderRanks(c: Config, s: State, a: Action)
    requires SenderEnabled(c, s, a)
    ensures Rank(c, SenderStep(c, s, a)) + 1 <= Rank(c, s)
  {
    hide Sum;
    var s' := SenderStep(c, s, a);
    SumUpdate(s.senders, a.sender, s'.senders[a.sender], SenderRank);
    if a.SendReceipt? {
      SumAppend(s.receipts, s'.receipts[|s.receipts|], ReceiptRank);
    }
  }

  lemma ProcessorRanks(c: Config, s: State, a: Action)
    requires ProcessorEnabled(c, s, a)
    ensures Rank(c, ProcessorStep(c, s, a)) + 1 <= Rank(c, s)
  {
    hide Sum;
    if a.TakeReceipt? {
      SumTail(s.receipts, ReceiptRank);
    }
  }

  lemma DispatcherRanks(c: Config, s: State, a: Action)
    requires DispatcherEnabled(c, s, a)
    ensures Rank(c, DispatcherStep(c, s, a)) + Work(s, a) <= Rank(c, s)
  {
    hide Sum;
    if a.Dispatch? {
      SumAppend(s.tasks, Wanting(s.dispatcher.entry), TaskRank);
    }
  }

  lemma OthersRank(c: Config, s: State, a: Action)
    requires if OfProducer(a) then ProducerEnabled(c, s, a) else ClientEnabled(c, s, a)
    ensures Rank(c, if OfProducer(a) then ProducerStep(c, s, a) else ClientStep(c, s, a)) <= Rank(c, s) + Input(a)
  {
    hide Sum;
  }

  /** Every step pays for itself: a productive one lowers the rank. */
  lemma StepRanks(c: Config, s: State, a: Action)
    requires Enabled(c, s, a)
    ensures Rank(c, Do(c, s, a)) + Work(s, a) <= Rank(c, s) + Input(a)
  {
    hide Rank, ProducerStep, ClientStep, DispatcherStep, TaskStep, SenderStep, ProcessorStep;
    if OfTask(a) {
      TaskRanks(c, s, a);
    } else if OfSender(a) {
      SenderRanks(c, s, a);
    } else if OfProcessor(a) {
      ProcessorRanks(c, s, a);
    } else if OfDispatcher(a) {
      DispatcherRanks(c, s, a);
    } else {
      OthersRank(c, s, a);
    }
  }

  /** Productive steps of a run. */
  function WorkOf(c: Config, s: State, run: seq<Action>): nat
    requires Executable(c, s, run)
    decreases |run|
  {
    if run == [] then 0 else Work(s, run[0]) + WorkOf(c, Do(c, s, run[0]), run[1..])
  }

  /** What the environment puts in over a run. */
  function InputOf(run: seq<Action>): nat
  {
    if run == [] then 0 else Input(run[0]) + InputOf(run[1..])
  }

  lemma {:induction false} RunRanks(c: Config, s: State, run: seq<Action>)
    requires Executable(c, s, run)
    ensures Rank(c, Run(c, s, run)) + WorkOf(c, s, run) <= Rank(c, s) + InputOf(run)
    decreases |run|
  {
    hide Rank, Enabled, Do, Work;
    if run != [] {
      StepRanks(c, s, run[0]);
      RunRanks(c, Do(c, s, run[0]), run[1..]);
    }
  }

  /** Entries whose letter is below n. */
  function Below(n: nat): Entry -> nat { (e: Entry) => if e.letter < n then 1 else 0 }

  lemma {:induction false} BelowNext(es: seq<Entry>, n: nat)
    ensures Sum(es, Below(n + 1)) == Sum(es, Below(n)) + Sum(es, Hits(OfLetter(n)))
  {
    if es != [] {
      BelowNext(es[..|es| - 1], n);
    }
  }

  /** Letter by letter, the grants below n are within the allowances below n. */
  lemma {:induction false} GrantsBelow(c: Config, s: State, n: nat)
    requires n <= |s.initial| && forall l :: 0 <= l < |s.initial| ==> Retries(s, l) <= Allowance(c, s.initial[l])
    ensures Sum(s.log.granted, Below(n)) <= Sum(s.initial[..n], AllowanceOf(c))
  {
    if n == 0 {
      SumZero(s.log.granted, Below(0));
    } else {
      GrantsBelow(c, s, n - 1);
      BelowNext(s.log.granted, n - 1);
      assert s.initial[..n][..n - 1] == s.initial[..n - 1];
      assert Retries(s, n - 1) <= Allowance(c, s.initial[n - 1]);
    }
  }

  lemma {:induction false} AllBelow(es: seq<Entry>, n: nat)
    requires forall i :: 0 <= i < |es| ==> es[i].letter < n
    ensures Sum(es, Below(n)) == |es|
  {
    if es != [] {
      AllBelow(es[..|es| - 1], n);
    }
  }

  /** The rank never goes below zero while every letter fits its counter. */
  lemma RankIsNonNegative(c: Config, s: State)
    requires Reachable(c, s) && forall l :: 0 <= l < |s.initial| ==> Fits(c, s, l)
    ensures Rank(c, s) >= 0
  {
    ReachableInv(c, s);
    forall l | 0 <= l < |s.initial| ensures Retries(s, l) <= Allowance(c, s.initial[l]) {
      assert Fits(c, s, l);
      ReachableBudget(c, s, l);
    }
    GrantsBelow(c, s, |s.initial|);
    assert s.initial[..|s.initial|] == s.initial;
    AllBelow(s.log.granted, |s.initial|);
  }

  /** Pipeline termination: over any run from the start, however consumers, stops
      and goroutines interleave, the productive steps are at most fifteen per retry
      the letters are allowed, fifteen per publish error or nack, fourteen per
      submitted letter and one per foreign error. */
  lemma ProductiveStepsAreBounded(c: Config, s: State, run: seq<Action>)
    requires Initial(c, s) && Executable(c, s, run)
    requires forall l :: 0 <= l < |s.initial| ==> Fits(c, Run(c, s, run), l)
    ensures WorkOf(c, s, run) <= 15 * Sum(s.initial, AllowanceOf(c)) + InputOf(run)
  {
    var s' := Run(c, s, run);
    RunRanks(c, s, run);
    KeepsInitial(c, s, run);
    assert Reachable(c, s');
    forall l | 0 <= l < |s'.initial| ensures Fits(c, s', l) { assert Fits(c, Run(c, s, run), l); }
    RankIsNonNegative(c, s');
    assert Rank(c, s) == 15 * Sum(s.initial, AllowanceOf(c));
  }

  lemma {:induction false} KeepsInitial(c: Config, s: State, run: seq<Action>)
    requires Executable(c, s, run)
    ensures Run(c, s, run).initial == s.initial
    decreases |run|
  {
    hide ProducerStep, ClientStep, DispatcherStep, TaskStep, SenderStep, ProcessorStep;
    if run != [] {
      KeepsInitial(c, Do(c, s, run[0]), run[1..]);
    }
  }

  /** Pipeline termination in one piece: a run from the start that has come to rest
      with its dispatcher serving has done a bounded amount of work, and has left
      every accepted letter either confirmed or reported exhausted, exactly once. */
  lemma RunsEndSettled(c: Config, s: State, run: seq<Action>, e: Entry)
    requires Initial(c, s) && Executable(c, s, run)
    requires forall l :: 0 <= l < |s.initial| ==> Fits(c, Run(c, s, run), l)
    requires Quiescent(c, Run(c, s, run)) && Serving(Run(c, s, run)) && ChannelsToSpare(c, Run(c, s, run))
    ensures WorkOf(c, s, run) <= 15 * Sum(s.initial, AllowanceOf(c)) + InputOf(run)
    ensures var s' := Run(c, s, run); e in s'.log.issued ==>
      && Sum(s'.confirmed, Hits(One(e))) + Sum(s'.exhausted, Hits(One(e))) == 1
      && Said(s', ExhaustedReports(e)) == Sum(s'.exhausted, Hits(One(e)))
  {
    ProductiveStepsAreBounded(c, s, run);
    assert Reachable(c, Run(c, s, run));
    if e in Run(c, s, run).log.issued {
      QuiescentMeansSettled(c, Run(c, s, run), e);
    }
  }

  // ---------- Every letter can still be settled ----------

  /** What a productive step leaves as it is, when no stop is pending. */
  ghost predicate Kept(s: State, s': State)
  {
    && Serving(s') && s'.stops == 0 && s'.initial == s.initial && s'.log.issued == s.log.issued
    && s'.pool.clients == s.pool.clients && s'.pool.shut == s.pool.shut
  }

  lemma DispatcherKeeps(c: Config, s: State, a: Action)
    requires DispatcherEnabled(c, s, a) && !a.Leave? && s.stops == 0
    ensures Kept(s, DispatcherStep(c, s, a))
  {
    hide Sum;
  }

  lemma ProductiveKeeps(c: Config, s: State, a: Action)
    requires Enabled(c, s, a) && Productive(s, a) && Serving(s) && s.stops == 0
    ensures Kept(s, Do(c, s, a))
  {
    hide Enabled, Do, DispatcherEnabled, DispatcherStep;
    if OfDispatcher(a) {
      DispatcherDoes(c, s, a);
      DispatcherKeeps(c, s, a);
    } else {
      Frame(c, s, a);
    }
  }

  lemma NoInput(s: State, a: Action)
    requires Productive(s, a) && !Fault(a)
    ensures Input(a) == 0 && Work(s, a) == 1
  {
  }

  /** Every confirmation in the run is answered as the broker chooses. */
  ghost predicate Answered(c: Config, s: State, run: seq<Action>, broker: State -> Verdict)
    requires Executable(c, s, run)
    decreases |run|
  {
    run == [] || ((run[0].Confirm? ==> run[0].verdict == broker(s)) && Answered(c, Do(c, s, run[0]), run[1..], broker))
  }

  /** From every reachable state with a serving dispatcher and no stop signal pending,
      whichever publications the broker acknowledges, lets time out or sees cancelled,
      as long as it neither refuses nor nacks one, the pipeline can come to rest in at
      most Rank productive steps, with no letter lost. */
  lemma {:induction false} CanSettle(c: Config, s: State, broker: State -> Verdict) returns (run: seq<Action>)
    requires Reachable(c, s) && ChannelsToSpare(c, s) && Serving(s) && s.stops == 0
    requires forall l :: 0 <= l < |s.initial| ==> Fits(c, s, l)
    requires forall x: State :: !broker(x).Nacked?
    ensures Executable(c, s, run) && |run| <= Rank(c, s) && InputOf(run) == 0 && Answered(c, s, run, broker)
    ensures AtRest(Run(c, s, run)) && Kept(s, Run(c, s, run))
    decreases Rank(c, s)
  {
    RankIsNonNegative(c, s);
    run := [];
    if !AtRest(s) {
      hide Rank, Sum, AtRest, Reachable, Enabled, Do, Productive, Serving;
      var a := Progress(c, s, broker(s));
      var m := Do(c, s, a);
      ProductiveKeeps(c, s, a);
      StepRanks(c, s, a);
      NoInput(s, a);
      RunOne(c, s, a);
      ReachableOn(c, s, [a]);
      forall l | 0 <= l < |m.initial| ensures Fits(c, m, l) { assert Fits(c, s, l); }
      RankIsNonNegative(c, m);
      run := CanSettle(c, m, broker);
      run := [a] + run;
    }
  }

  /** And there every accepted letter is confirmed or exhausted. */
  lemma CanSettleEveryLetter(c: Config, s: State, broker: State -> Verdict) returns (run: seq<Action>)
    requires Reachable(c, s) && ChannelsToSpare(c, s) && Serving(s) && s.stops == 0
    requires forall l :: 0 <= l < |s.initial| ==> Fits(c, s, l)
    requires forall x: State :: !broker(x).Nacked?
    ensures Executable(c, s, run) && |run| <= Rank(c, s) && InputOf(run) == 0 && Answered(c, s, run, broker)
    ensures forall e :: e in s.log.issued ==>
      Sum(Run(c, s, run).confirmed, Hits(One(e))) + Sum(Run(c, s, run).exhausted, Hits(One(e))) == 1
  {
    run := CanSettle(c, s, broker);
    ReachableOn(c, s, run);
    forall e | e in s.log.issued
      ensures Sum(Run(c, s, run).confirmed, Hits(One(e))) + Sum(Run(c, s, run).exhausted, Hits(One(e))) == 1
    {
      RestSettles(c, Run(c, s, run), e);
    }
  }

  /** Each user of the cache holds one of its channels at most, so fewer users than
      channels leave one to spare. */
  lemma FewClientsLeaveChannels(c: Config, s: State)
    requires ValidConfig(c) && s.pool.shut == [] && |s.pool.clients| < c.cacheSize
    ensures ChannelsToSpare(c, s)
  {
    ClientsHoldOneEach(s.pool.clients);
  }

  /** Deadlock-freedom with consumers: fewer users of the cache than it has channels
      never starve the publisher, whichever channels they hold. */
  lemma FewConsumersLeaveProgress(c: Config, s: State, e: Entry) returns (a: Action)
    requires Reachable(c, s) && ValidConfig(c) && s.pool.shut == [] && |s.pool.clients| < c.cacheSize && Serving(s)
    requires e in s.log.issued && e !in s.confirmed && e !in s.exhausted
    ensures Productive(s, a) && Enabled(c, s, a) && !Fault(a)
  {
    FewClientsLeaveChannels(c, s);
    a := UnfinishedLetterHasAStep(c, s, e);
  }

  lemma {:induction false} ClientsHoldOneEach(clients: seq<Client>)
    ensures Sum(clients, ClientChannels(Every)) <= |clients|
  {
    if clients != [] {
      ClientsHoldOneEach(clients[..|clients| - 1]);
    }
  }
}
