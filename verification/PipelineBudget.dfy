/** The retry budget. RetryCount lives in the letter, so entries that share a
    letter share its budget, in every interleaving. */
module PipelineBudget {
  import opened Sequences
  import opened Pipeline
  import opened PipelineConservation
  import opened PipelineSafety

  /** max(0, M - r): the retries a letter that starts at r has in front of it. */
  function Allowance(c: Config, r: Counter): nat { if c.maxRetry >= r then c.maxRetry - r else 0 }

  /** How many queue entries have been accepted for the letter. */
  function Entries(s: State, l: nat): nat { Sum(s.log.issued, Hits(OfLetter(l))) }

  /** How many retries have been granted to the letter. */
  function Retries(s: State, l: nat): nat { Sum(s.log.granted, Hits(OfLetter(l))) }

  /** r + K + max(0, M - r) <= 65535. */
  predicate Fits(c: Config, s: State, l: nat)
  {
    l < |s.initial| && s.initial[l] + Entries(s, l) + Allowance(c, s.initial[l]) < RETRY_MODULUS
  }

  ghost predicate Budgeted(c: Config, s: State, l: nat)
  {
    && l < |s.initial|
    && Retries(s, l) <= Allowance(c, s.initial[l])
    && ((s.processor.SayingExhausted? && s.processor.entry.letter == l)
        || Sum(s.exhausted, Hits(OfLetter(l))) > 0 ==>
        s.initial[l] + Sum(s.log.counted, Hits(OfLetter(l))) > c.maxRetry)
  }

  /** Failures still to be judged, and exhausted entries, are accepted entries. */
  lemma SpentIsPlaced(p: Probe, s: State)
    ensures Spent(p, s) <= InPlaces(p, s)
  {
    hide Sum;
    SumBelow(s.senders, SenderSpent(p), SenderHits(p));
    SumBelow(s.receipts, ReceiptSpent(p), ReceiptHits(p));
  }

  /** Within its budget the counter has not wrapped. */
  lemma NoWrap(c: Config, s: State, l: nat)
    requires Inv(c, s) && Fits(c, s, l) && Retries(s, l) <= Allowance(c, s.initial[l])
    ensures Sum(s.log.counted, Hits(OfLetter(l))) == Retries(s, l) + Spent(OfLetter(l), s)
    ensures Spent(OfLetter(l), s) <= Entries(s, l)
    ensures l < |s.retry| && s.retry[l] == s.initial[l] + Sum(s.log.counted, Hits(OfLetter(l)))
  {
    hide Sum, Spent, InPlaces;
    var p := OfLetter(l);
    SpentIsPlaced(p, s);
    assert Conserved(p, s) && Balanced(p, s);
  }

  /** Admissions only grow, so a letter that fits at the end fitted all along. */
  lemma FitsBefore(c: Config, s: State, a: Action, l: nat)
    requires Enabled(c, s, a) && Fits(c, Do(c, s, a), l)
    ensures Fits(c, s, l)
  {
    hide Sum, Enabled, Do;
    if OfProducer(a) {
      ProducerDoes(c, s, a);
    } else {
      Frame(c, s, a);
    }
    if a.Submit? && !s.closed {
      SumAppend(s.log.issued, Entry(|s.log.issued|, a.letter), Hits(OfLetter(l)));
    }
  }

  lemma {:induction false} FitsThroughout(c: Config, s: State, run: seq<Action>, l: nat)
    requires Executable(c, s, run) && Fits(c, Run(c, s, run), l)
    ensures Fits(c, s, l)
    decreases |run|
  {
    if run != [] {
      FitsThroughout(c, Do(c, s, run[0]), run[1..], l);
      FitsBefore(c, s, run[0], l);
    }
  }

  /** A decision is taken on a counter that includes the failure being judged. */
  lemma ProcessorBudget(c: Config, s: State, a: Action, l: nat)
    requires Budgeted(c, s, l) && ProcessorEnabled(c, s, a)
    requires l < |s.retry| && s.retry[l] == s.initial[l] + Sum(s.log.counted, Hits(OfLetter(l)))
    requires Sum(s.log.counted, Hits(OfLetter(l))) == Retries(s, l) + Spent(OfLetter(l), s)
    ensures Budgeted(c, ProcessorStep(c, s, a), l)
  {
    hide Sum;
    if a.Judge? {
      SumAppend(s.log.granted, s.processor.entry, Hits(OfLetter(l)));
    } else if a.Say? {
      SumAppend(s.exhausted, s.processor.entry, Hits(OfLetter(l)));
    }
  }

  lemma ProcessorKeepsBudget(c: Config, s: State, a: Action, l: nat)
    requires Inv(c, s) && Fits(c, s, l) && Budgeted(c, s, l) && ProcessorEnabled(c, s, a)
    ensures Budgeted(c, ProcessorStep(c, s, a), l)
  {
    hide Sum, Inv, Spent, ProcessorEnabled, ProcessorStep;
    NoWrap(c, s, l);
    ProcessorBudget(c, s, a, l);
  }

  lemma SenderBudget(c: Config, s: State, a: Action, l: nat)
    requires Budgeted(c, s, l) && SenderEnabled(c, s, a)
    ensures Budgeted(c, SenderStep(c, s, a), l)
  {
    hide Sum;
    if a.Count? {
      SumAppend(s.log.counted, s.senders[a.sender].entry, Hits(OfLetter(l)));
    }
  }

  lemma BudgetDependsOn(c: Config, s: State, s': State, l: nat)
    requires Budgeted(c, s, l) && s'.initial == s.initial && s'.processor == s.processor && s'.exhausted == s.exhausted
    requires s'.log.granted == s.log.granted && s'.log.counted == s.log.counted
    ensures Budgeted(c, s', l)
  {
    hide Sum;
  }

  lemma StepKeepsBudget(c: Config, s: State, a: Action, l: nat)
    requires Inv(c, s) && Fits(c, s, l) && Budgeted(c, s, l) && Enabled(c, s, a)
    ensures Budgeted(c, Do(c, s, a), l)
  {
    hide Sum, Inv, Fits, Budgeted, ProducerStep, ClientStep, DispatcherStep, TaskStep, SenderStep, ProcessorStep;
    if OfProcessor(a) {
      ProcessorKeepsBudget(c, s, a, l);
    } else if OfSender(a) {
      SenderBudget(c, s, a, l);
    } else {
      BudgetDependsOn(c, s, Do(c, s, a), l);
    }
  }

  lemma {:induction false} RunKeepsBudget(c: Config, s: State, run: seq<Action>, l: nat)
    requires Inv(c, s) && Budgeted(c, s, l) && Executable(c, s, run) && Fits(c, Run(c, s, run), l)
    ensures Budgeted(c, Run(c, s, run), l)
    decreases |run|
  {
    hide Sum, Inv, Budgeted, Fits, Enabled, Do;
    if run != [] {
      FitsThroughout(c, s, run, l);
      StepKeepsBudget(c, s, run[0], l);
      StepKeepsInv(c, s, run[0]);
      RunKeepsBudget(c, Do(c, s, run[0]), run[1..], l);
    }
  }

  lemma ReachableBudget(c: Config, s: State, l: nat)
    requires Reachable(c, s) && Fits(c, s, l)
    ensures Budgeted(c, s, l)
  {
    var s0: State, run: seq<Action> :| Initial(c, s0) && Executable(c, s0, run) && Run(c, s0, run) == s;
    InitialInv(c, s0);
    FitsThroughout(c, s0, run, l);
    RunKeepsBudget(c, s0, run, l);
  }

  /** However often the letter was queued and however the goroutines interleave,
      its requeues never exceed max(0, M - r), and its uint16 counter is exactly
      r plus its counted failures: it has never wrapped. */
  lemma SharedRetryBudget(c: Config, s: State, l: nat)
    requires Reachable(c, s) && Fits(c, s, l)
    ensures Sum(s.log.accepted, Hits(OfLetter(l))) - Entries(s, l) <= Retries(s, l) <= Allowance(c, s.initial[l])
    ensures l < |s.retry| && s.retry[l] == s.initial[l] + Sum(s.log.counted, Hits(OfLetter(l)))
  {
    ReachableInv(c, s);
    ReachableBudget(c, s, l);
    NoWrap(c, s, l);
    assert Balanced(OfLetter(l), s);
  }

  /** Once an entry of the letter has been reported exhausted, the letter has used
      its budget up to the failures its other entries counted. */
  lemma ExhaustedUsesBudget(c: Config, s: State, e: Entry)
    requires Reachable(c, s) && e in s.exhausted && Fits(c, s, e.letter)
    ensures Allowance(c, s.initial[e.letter]) <= Retries(s, e.letter) + Entries(s, e.letter) - 1
    ensures 1 <= Entries(s, e.letter)
  {
    var l := e.letter;
    ReachableInv(c, s);
    ReachableBudget(c, s, l);
    NoWrap(c, s, l);
    assert Conserved(OfLetter(l), s);
    var i :| 0 <= i < |s.exhausted| && s.exhausted[i] == e;
    SumPart(s.exhausted, i, Hits(OfLetter(l)));
  }

  /** A letter queued once and reported exhausted was attempted exactly
      1 + max(0, M - r) times, retried after every attempt but the last, and
      reported exhausted exactly once. */
  lemma ExactRetryCount(c: Config, s: State, e: Entry)
    requires Reachable(c, s) && e in s.exhausted && e.letter < |s.initial|
    requires Entries(s, e.letter) == 1
    requires s.initial[e.letter] < 65535 && c.maxRetry < 65535
    ensures Sum(s.log.taken, Hits(OfLetter(e.letter))) == 1 + Allowance(c, s.initial[e.letter])
    ensures Retries(s, e.letter) == Allowance(c, s.initial[e.letter])
    ensures Said(s, ExhaustedReports(e)) == 1
  {
    var l := e.letter;
    ReachableInv(c, s);
    ExhaustedUsesBudget(c, s, e);
    ReachableBudget(c, s, l);
    OnlyInExhausted(c, s, e);
    assert Balanced(OfLetter(l), s) && Reported(e, s);
    SumConcat(s.log.taken, s.queue, Hits(OfLetter(l)));
    EntryInExactlyOnePlace(c, s, e);
    var i :| 0 <= i < |s.exhausted| && s.exhausted[i] == e;
    SumPart(s.exhausted, i, Hits(One(e)));
  }

  lemma OnlyInExhausted(c: Config, s: State, e: Entry)
    requires Inv(c, s) && e in s.exhausted && Entries(s, e.letter) == 1
    ensures Sum(s.queue, Hits(OfLetter(e.letter))) == 0 && Returning(OfLetter(e.letter), s) == 0
  {
    var p := OfLetter(e.letter);
    assert Conserved(p, s);
    var i :| 0 <= i < |s.exhausted| && s.exhausted[i] == e;
    SumPart(s.exhausted, i, Hits(p));
  }
}
